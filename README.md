# SST Docs HTML generator, modelled in Dafny

The HTML generator of SST Docs turns a versioned documentation tree into a static site. The tree holds categories, documents and typed content blocks. For each version the generator:

- builds a navigation index;
- renders every block to an HTML fragment;
- caches one rendered image per distinct chart;
- wraps each page in the page shell, which holds the header, the collapsible sidebar and the breadcrumb;
- resolves the relative hrefs between pages and shared assets, under the inline and the separate-build layouts;
- collects the media the content refers to;
- writes a manifest.

Two small command-line parsers choose the build options and validate the output.

This project models that core. Pure code becomes datatypes, functions and lemmas. Code that changes state step by step becomes methods proved against specification functions. This covers:

- the argument loops, the default-document search and the per-page loops;
- the block renderer's instance counters and compare-script flag, kept in the class `BlockRender.RenderSession`;
- the chart cache, kept in the class `ChartAssets.ChartAssetManager`;
- the media set, kept in the class `CopyAssets.MediaCollector`.

Modules, leaves first:

| module | models |
|---|---|
| `Wrappers`, `Text`, `OrderedMaps`, `Paths` | option/result values; string helpers; insertion-ordered maps (the JavaScript `Map`); `joinUrl`; paths as segment lists with `resolve` and `relative` |
| `Html` | the node tree the templates build, with its serialiser and the HTML escaper |
| `Docs` | the content data model: blocks, documents, categories, version entries, theme, and the foreign helpers passed in as values |
| `Navigation`, `SidebarDepth` | `buildNavigationIndex` and its invariants; the bound on sidebar depth |
| `Helpers`, `Blocks`, `CodeBlocks`, `MediaBlocks`, `BlockRender` | `helpers.ts`, the per-kind renderers of `blocks.ts`, the dispatch table and `renderBlocks` |
| `ChartAssets` | chart sizing, the content key and `ChartAssetManager` |
| `PageShell`, `DocumentPage`, `CategoryPage`, `LandingPage` | the sidebar, breadcrumb, header and page shell, and the three page kinds |
| `VersionHrefs`, `VersionRender`, `VersionPages` | the href closures of `renderVersion`, the default document, the manifest and the page loops |
| `CopyAssets` | media-path matching and collection, the stylesheet choice and its url rewrite, the asset manifest listing, media copies |
| `Cli`, `ValidateOutput` | `parseCliArgs`, `normalizeBoolean`, the separate-build precedence and output directories; `parseArgs`, the script-tag test and `run` |

## Model

| member | source | states |
|---|---|---|
| Paths.JoinUrl | src/utilities/paths.ts:3-9 | the URL always starts and ends with `/` |
| Paths.JoinUrlRoot | src/utilities/paths.ts:4-7 | the URL is exactly `/` if and only if every part is empty or made only of slashes |
| Paths.JoinUrlIdempotent | src/utilities/paths.ts:3-9 | joining the URL again on its own returns it unchanged |
| Paths.StripLeadingSlashes | src/utilities/paths.ts:5 | the leading run of slashes is removed and nothing else: what is removed is all `/`, and the rest does not start with `/` |
| Paths.StripTrailingSlashes | src/utilities/paths.ts:5 | the trailing run of slashes is removed and nothing else: what is removed is all `/`, and the rest does not end with `/` |
| Paths.StripLeadingSuffix | src/utilities/paths.ts:5 | stripping leading slashes leaves a suffix of the segment |
| Paths.StripTrailingPrefix | src/utilities/paths.ts:5 | stripping trailing slashes leaves a prefix of the segment |
| Paths.StripSlashesEmpty | src/utilities/paths.ts:5-6 | a segment is dropped by the filter if and only if it is made only of slashes |
| Paths.StripSlashesTrimmed | src/utilities/paths.ts:5 | a stripped segment neither starts nor ends with `/` |
| Paths.StripSlashesFixed | src/utilities/paths.ts:5 | a segment with no slash at either end is kept as it is |
| Paths.CleanPartsTrimmed | src/utilities/paths.ts:4-6 | every kept part is trimmed of slashes |
| Paths.CleanPartsEmpty | src/utilities/paths.ts:4-7 | no part is kept if and only if every part is made only of slashes |
| Paths.ResolveSegments | src/render/renderVersion.ts:42-45 | `path.resolve` of relative segments keeps a normalised base normalised (no `.`, `..` or empty segment) |
| Paths.ResolveAppend | src/render/renderVersion.ts:42-45 | resolving a concatenation is resolving its two parts one after the other |
| Paths.ResolveNames | src/render/renderVersion.ts:42-45 | plain names are appended to the base as they are |
| Paths.ResolveUps | src/render/renderVersion.ts:119-122 | `k` times `..` removes the last `k` segments of the base |
| Paths.CommonPrefix | src/render/renderVersion.ts:122 | the longest common prefix of two paths: both agree up to it and differ right after it |
| Paths.RelativeRoundTrip | src/render/renderVersion.ts:119-122 | resolving `path.relative(from, to)` from `from` leads back to `to` |
| Paths.RelativeEmpty | src/render/renderVersion.ts:67-68 | the relative path is empty if and only if the two paths are the same |
| Paths.Dirname | src/render/renderVersion.ts:61 | `path.dirname` drops exactly the last segment |
| Paths.DotPrefixed | src/render/renderVersion.ts:78-80 | the href starts with `.`: unchanged when it already did, else `./` is put in front |
| Paths.ResolveSlashFree | src/render/renderVersion.ts:42-45 | resolving from a base of plain names yields plain names |
| Paths.PosixRoundTrip | src/render/renderVersion.ts:119-122 | the relative path written with `/` is empty only for the same place, never starts with `/`, and resolves back to the target |
| Paths.ResolveDotSlash | src/render/renderVersion.ts:123 | a leading `./` changes nothing the href resolves to |
| Paths.DotPrefixedRoundTrip | src/render/renderVersion.ts:119-124 | the separate-build href (`./` added unless it starts with `.`) leads from the page directory to the target |
| Paths.LogicalRoundTrip | src/render/renderVersion.ts:66-70 | the inline href (`./` when empty) leads from the page directory to the target |
| Text.NonEmpty | src/utilities/paths.ts:6 | `filter(Boolean)` keeps at most the parts it was given |
| Text.NonEmptyMembers | src/utilities/paths.ts:6 | the kept strings are exactly the non-empty ones |
| Text.Split | src/index.ts:91 | `split` always yields at least one piece |
| Text.SplitPiecesFree | src/index.ts:91 | no piece of a split contains the separator |
| Text.SplitJoin | src/index.ts:91 | joining the pieces with the separator gives back the string |
| Text.JoinSplit | src/index.ts:91 | splitting separator-free pieces after joining them gives the pieces back |
| Text.SplitAfter | src/index.ts:91 | a separator after a separator-free prefix closes the first piece |
| Text.SplitSecondAfter | src/index.ts:91 | `arg.split("=", 2)[1]` after `--flag=` is the value up to its next `=` (all of it when it has none) |
| Text.ToLower | src/index.ts:121 | lower-casing keeps the length and maps each character on its own |
| Text.ToLowerIdempotent | src/index.ts:121 | lower-casing twice is lower-casing once |
| Text.Trim | src/index.ts:121 | the trimmed string neither starts nor ends with white space |
| Text.NatToString | src/templates/blocks.ts:427 | `String(n)` of a counter is a non-empty string of decimal digits |
| Text.NatToStringRoundTrip | src/templates/blocks.ts:427 | reading the printed number back gives the number |
| Text.NatToStringInjective | src/templates/blocks.ts:427 | different counters print differently |
| Html.ReplaceAll | src/templates/helpers.ts:15-19 | a global replacement of a character leaves none of it when the replacement does not contain it, and adds no other character |
| Html.EscapeOpt | src/templates/helpers.ts:10-20 | `null` and `undefined` escape to the empty string, any other value to `escapeHtml` of it |
| Html.EscapeHtmlPerChar | src/templates/helpers.ts:14-19 | the chain of five replacements equals escaping every character on its own |
| Html.ChainChar | src/templates/helpers.ts:14-19 | on a single character the chain yields exactly that character's entity |
| Html.EscapeHtmlClean | src/templates/helpers.ts:14-19 | escaped text contains no raw `<`, `>`, `"` or `'` |
| Html.EscapeHtmlSafe | src/templates/helpers.ts:14-19 | text without special characters is left unchanged |
| Html.TextIsInert | src/templates/helpers.ts:10-20 | interpolated text never injects markup: its output has no raw `<` or `>` |
| OrderedMaps.OrderedMap.Get | src/render/structure/pageShell.ts:329-338 | `map.get(k)` finds a value exactly when the key is present, and it is the stored one |
| OrderedMaps.OrderedMap.Set | src/render/structure/navigation.ts:94 | `map.set` keeps the map well formed, updates the value, keeps the position of an existing key and appends a new key at the end |
| OrderedMaps.OrderedMap.Values | src/render/renderVersion.ts:173 | `map.values()` lists one value per key, in insertion order |
| OrderedMaps.Empty | src/render/structure/navigation.ts:74-75 | `new Map()` is empty and well formed |
| OrderedMaps.SetKeepsOrder | src/render/structure/navigation.ts:94 | setting a key never moves another key |
| OrderedMaps.SetAll | src/render/structure/navigation.ts:96-105 | a run of `set` calls keeps the map well formed |
| OrderedMaps.SetAllAppend | src/render/structure/navigation.ts:96-105 | two runs of `set` calls are the run of their concatenation |
| OrderedMaps.SetAllKeys | src/render/structure/navigation.ts:96-105 | a key is present afterwards exactly when it was before or some pair names it |
| OrderedMaps.SetAllLast | src/render/structure/navigation.ts:96-105 | the last write to a key wins |
| OrderedMaps.SetAllUntouched | src/render/structure/navigation.ts:96-105 | writes to other keys leave a key's presence and value alone |
| OrderedMaps.SetAllLastOfSuffix | src/render/structure/navigation.ts:96-105 | the last write wins across two runs of writes |
| Docs.Slot | src/render/structure/pageShell.ts:290 | a theme slot is present exactly when the theme defines its key |
| Docs.ChartTheme | src/render/chartAssets.ts:297-313 | the chart part of the theme only holds slots of the theme, with their values |
| Navigation.ParentOf | src/render/structure/navigation.ts:85-86 | the parent is absent exactly for a root, and is otherwise the last ancestor |
| Navigation.DocIdsOf | src/render/structure/navigation.ts:32 | a category's `docs` entry lists the ids of its documents, in order |
| Navigation.CategoryIdsOf | src/render/structure/navigation.ts:33 | a category's `childCategories` lists the ids of its children, in order |
| Navigation.DocPairs | src/render/structure/navigation.ts:96-105 | one `documents.set` per listed document, in order, each with the document's entry under its category |
| Navigation.StandalonePairs | src/render/structure/navigation.ts:119-129 | one `documents.set` per standalone document, in order, each with its standalone entry |
| Navigation.VisitCategory | src/render/structure/navigation.ts:78-112 | `traverseCategory` keeps both maps well formed (distinct keys, keys match the entries) |
| Navigation.VisitChildren | src/render/structure/navigation.ts:107-109 | traversing the children one after the other keeps both maps well formed |
| Navigation.RootEntries | src/render/structure/navigation.ts:114-117 | the tree holds one entry per root category, in input order, each built with an empty trail |
| Navigation.StandaloneEntries | src/render/structure/navigation.ts:119-129 | one standalone entry per standalone document, in input order |
| Navigation.FinalState | src/render/structure/navigation.ts:114-129 | after the walk and the standalone documents both maps are well formed |
| Navigation.NavigationIndexOf | src/render/structure/navigation.ts:65-140 | `buildNavigationIndex` yields well-formed category and document maps |
| Navigation.FlattenCategory | src/render/structure/navigation.ts:78-112 | traversing a category is the same as applying its list of category writes and its list of document writes |
| Navigation.FlattenChildren | src/render/structure/navigation.ts:107-109 | traversing a list of children is the same as applying their write lists in order |
| Navigation.WritesFollowPreOrder | src/render/structure/navigation.ts:94-109 | the category writes name every category of the forest, in pre-order: a category before its children, siblings in order |
| Navigation.IndexIsWrites | src/render/structure/navigation.ts:65-140 | the category map is the result of the pre-order category writes, and the document map that of the category documents' writes followed by the standalone ones |
| Navigation.EveryCategoryRegistered | src/render/structure/navigation.ts:94 | every category of the forest has an entry in the index |
| Navigation.StandaloneWins | src/render/structure/navigation.ts:119-129 | a standalone document's id maps to the entry of the last standalone document with that id, replacing any category document of the same id |
| Navigation.VisitGrows | src/render/structure/navigation.ts:78-112 | a traversal only adds category keys |
| Navigation.DocPairsKeep | src/render/structure/navigation.ts:96-105 | setting a category's document entries keeps every entry linked to registered ancestors |
| Navigation.VisitKeepsWellFormed | src/render/structure/navigation.ts:78-112 | a traversal keeps every entry linked and closed: one breadcrumb item more than ancestors, the parent is the last ancestor, every ancestor is registered |
| Navigation.StandaloneKeep | src/render/structure/navigation.ts:119-129 | standalone entries are linked and have no ancestors |
| Navigation.IndexWellFormed | src/render/structure/navigation.ts:65-140 | in the built index, for every entry: the breadcrumb has one more item than the ancestors, the parent is the last ancestor (none at a root), and every ancestor is a registered category |
| Navigation.DocUnderCategory | src/render/structure/navigation.ts:96-105 | a listed document has its category as parent, the category's ancestors plus the category as ancestors, the category's breadcrumb plus its title, is not standalone and is written at `docs/<id>/index.html` |
| Navigation.TreeIsRoots | src/render/structure/navigation.ts:114-117 | the tree holds the root entries in input order; each has a one-item breadcrumb, no parent, no ancestors, and is written at `categories/<id>/index.html` |
| Navigation.IndexKeyedById | src/render/structure/navigation.ts:94 | the category map stores every entry under its own id |
| Navigation.IndexBuilder.TraverseRoots | src/render/structure/navigation.ts:114-117 | the loop over the root categories leaves the state of the walk over the forest and the list of root entries |
| Navigation.IndexBuilder.AppendRoot | src/render/structure/navigation.ts:115-116 | one round of that loop: the root is traversed and its entry appended to the tree |
| Navigation.IndexBuilder.SetDocuments | src/render/structure/navigation.ts:96-105 | `documents.set` for each pair in order, nothing else changes |
| Navigation.IndexBuilder.TraverseCategory | src/render/structure/navigation.ts:78-112 | the recursive traversal leaves the maps as the walk function says, and returns the category's entry |
| Navigation.BuildNavigationIndex | src/render/structure/navigation.ts:65-140 | the imperative build returns exactly the index the walk function describes |
| Helpers.LeadingLetters | src/templates/helpers.ts:7-8 | the count is exactly the run of ASCII letters at the start of the path (the scheme `isExternalPath` looks for before a colon) |
| Helpers.ClassNamesEmpty | src/templates/helpers.ts:22-24 | the class string is empty if and only if every entry is empty |
| Helpers.ClassNamesSingle | src/templates/helpers.ts:22-24 | a single non-empty entry among empty ones is the whole class string |
| Helpers.ClassNamesExample | src/templates/helpers.ts:22-24 | `classNames("one", undefined, false, "two")` is `one two` |
| Helpers.WrapWithSpacing | src/templates/helpers.ts:34-42 | the markup is returned unchanged when the spacing class is empty, and otherwise is the only child of one `div` carrying that class |
| Helpers.SectionWrapper | src/templates/blocks.ts:10-13 | an empty spacing class leaves the section as it is; otherwise the section is the only child of one `div` |
| Helpers.GetAlignment | src/templates/helpers.ts:44-49 | a known key gives its alignment entry; an unknown key gives the `left` fallback, and an undefined key the `left` entry |
| Helpers.NoColonNotExternal | src/templates/helpers.ts:7-8 | a path with no colon that does not start with `//` is never external |
| Helpers.RelativePathGainsSlash | src/templates/helpers.ts:51-63 | without a resolver, a site-relative path gains exactly one leading `/` |
| Helpers.RenderFigureCaption | src/templates/helpers.ts:65-69 | an empty caption renders nothing; otherwise one `figcaption` whose only child is the caption as escaped text |
| Helpers.SlugFromTitle | src/templates/helpers.ts:85-88 | there is a slug if and only if the title is present and non-empty |
| SidebarDepth.RootWritten | src/render/structure/navigation.ts:78-117 | every root category of the tree is written into the category map with its own entry |
| SidebarDepth.CategoryWritesLater | src/render/structure/navigation.ts:94-109 | the walk writes a category before its children: every child id of a written entry is written later |
| SidebarDepth.ForestWritesLater | src/render/structure/navigation.ts:114-117 | the same holds for the writes of the whole forest |
| SidebarDepth.FoundChildLater | src/render/structure/pageShell.ts:336-349 | a child the sidebar looks up under an entry is the last write of a key written after it, with fewer keys above it |
| SidebarDepth.FuelEnough | src/render/structure/pageShell.ts:303-393 | for a category map built by the walk, the sidebar subtree of an entry is the same with any nesting bound at least the number of keys above it |
| SidebarDepth.SidebarFuelSuffices | src/render/structure/pageShell.ts:417-425 | for an index built by the walk, every root category renders the same subtree with the model's nesting bound as with any larger one, so the bound never cuts the recursion short |
| Blocks.StyleOr | src/templates/blocks.ts:29 | a theme slot gives its class when present and the template's fallback otherwise |
| Blocks.TitleLevel | src/templates/blocks.ts:20 | the heading level is always 1 to 6: 1 when missing, the level itself inside the range, and the nearer bound outside it |
| Blocks.HeadingId | src/templates/blocks.ts:33-35 | there is a heading id if and only if anchor links are enabled and the title has text |
| Blocks.TitleHeading | src/templates/blocks.ts:38-55 | the heading is `h` plus its level; it carries the slug as `id` and a second child `a` linking to `#` plus the slug exactly when anchor links are enabled and the slug is non-empty; the first child is the title as escaped text |
| Blocks.RenderTitle | src/templates/blocks.ts:15-62 | a title block renders if and only if it has data with non-empty text |
| Blocks.RenderText | src/templates/blocks.ts:64-77 | a text block renders if and only if it has non-empty text; without spacing it is one `p` holding exactly the text |
| Blocks.ListElement | src/templates/blocks.ts:87-106 | the list is `ol` only for type `ol` and `ul` otherwise, with one `li` per item holding that item as escaped text, in order |
| Blocks.ListAttributes | src/templates/blocks.ts:95-106 | `start` appears only on an ordered list with a start number, `aria-label` only for a non-empty label, and `role="list"` always |
| Blocks.RenderList | src/templates/blocks.ts:79-109 | a list block renders if and only if it has at least one item |
| Blocks.IndexOfFrom | src/templates/blocks.ts:144 | the position found is the first occurrence of the pattern at or after the start, and no position is found only when there is none |
| Blocks.ReplaceFirst | src/templates/blocks.ts:144 | `String.replace` with a string pattern replaces only the first occurrence, and leaves a string without one unchanged |
| Blocks.ReplaceFirstAtStart | src/templates/blocks.ts:144 | a string that starts with the pattern has exactly that prefix replaced |
| Blocks.DividerClass | src/templates/blocks.ts:117-141 | every divider type but `gradient` is the base class plus a non-empty border class of its own |
| Blocks.DividerSideClass | src/templates/blocks.ts:143-144 | for every type but `gradient`, the rule class starts with `w-full`, so the side rules take `flex-1` in its place |
| Blocks.DividerMarkup | src/templates/blocks.ts:143-160 | a divider with text is a span with the text between two equal side rules; without text it is one empty `div` with the rule class |
| Blocks.RenderDivider | src/templates/blocks.ts:111-161 | a divider renders if and only if it has data, wrapped in its spacing with `medium` as fallback |
| Blocks.RenderMessageBox | src/templates/blocks.ts:163-198 | a message box renders if and only if it has non-empty text; a quote is a spacing-wrapped `blockquote` with the text; every other type is a `div.my-4` that ignores the spacing |
| Blocks.CellStyle | src/templates/blocks.ts:212-223 | the matrix corner takes the corner class first; header cells, the first row of a vertical table and the first column of a horizontal table take the header class; all other cells take the row class |
| Blocks.CellNode | src/templates/blocks.ts:211-234 | a cell is `th` if and only if it is a header cell, holds its content (empty when missing) as escaped text, has `scope` only when given, and the class built from the border and cell style |
| Blocks.TableRows | src/templates/blocks.ts:207-246 | there is one `tr` per row and one cell per entry, each cell built with its own row and column index |
| Blocks.RenderTable | src/templates/blocks.ts:200-262 | the table block is the "No data available" placeholder if and only if there are no rows; otherwise one `table` whose `tbody` holds the rows |
| CodeBlocks.NormaliseCodeSections | src/templates/blocks.ts:264-288 | explicit sections are kept one for one with missing content read as empty; otherwise a block with content gives one section (language `plaintext` when missing, file name from the block's name); the result is empty if and only if there is neither; every section has content |
| CodeBlocks.NormalizePrismLanguage | src/templates/blocks.ts:320-324 | a missing or empty language is `plaintext`; otherwise the lower-cased name through the alias table, or the lower-cased name itself; never empty |
| CodeBlocks.AliasTargetsAreNormal | src/templates/blocks.ts:290-324 | every alias names a language that normalises to itself |
| CodeBlocks.NormalizeIdempotent | src/templates/blocks.ts:320-324 | normalising an already normalised language changes nothing |
| CodeBlocks.EnsurePrismLanguage | src/templates/blocks.ts:326-334 | the loaded set only grows, by at most the language; the language is loaded afterwards if and only if it was before, or it is non-empty and loading it does not throw |
| CodeBlocks.GrammarName | src/templates/blocks.ts:340 | the grammar used is the language's own or the plain-text one |
| CodeBlocks.HighlightWithPrism | src/templates/blocks.ts:336-348 | the language is normalised and loaded first; a successful highlight gives Prism's markup under that language, a throwing one the escaped code under `plaintext` |
| CodeBlocks.LanguageName | src/templates/blocks.ts:388-395 | the shown name is the configured name of the section's language (or of the Prism language when the section has none), else that of the Prism language, else the raw language |
| CodeBlocks.LineNumberColumn | src/templates/blocks.ts:397-412 | no column when line numbers are off; otherwise one numbered entry per line of the content |
| CodeBlocks.RenderSegment | src/templates/blocks.ts:381-425 | a segment carries the highlight result and language name of its section; line numbers are shown unless switched off explicitly, one per line |
| CodeBlocks.LoadedAfter | src/templates/blocks.ts:381-387 | across the sections, every section's normalised language that loads without throwing is loaded afterwards, and nothing else is added |
| CodeBlocks.RenderSegments | src/templates/blocks.ts:381-425 | one segment per section, with the loaded set after all of them |
| CodeBlocks.CodeBlockIdsDistinct | src/templates/blocks.ts:427 | different counter values give different block ids |
| CodeBlocks.CodeTitle | src/templates/blocks.ts:373-379 | the title is the block's name, else the first section's file name, else `Code` when the first section's language has no configured name |
| CodeBlocks.TabInputAttrs | src/templates/blocks.ts:473-478 | the input of tab `i` has the tab's option id and is checked if and only if it is the first |
| CodeBlocks.TabLabel | src/templates/blocks.ts:479-483 | the label shows the segment's language name and points at the tab's input |
| CodeBlocks.TabInputsDistinct | src/templates/blocks.ts:471-478 | no two inputs of a block share an id, and exactly the first is checked |
| CodeBlocks.TabStylesAt | src/templates/blocks.ts:485-491 | tab `i` owns style rules `2i` and `2i + 1`, both for position `i + 1`: its selected rule and then its dark variant |
| CodeBlocks.BuildTabs | src/templates/blocks.ts:460-500 | the tab loop builds, for the segments in order, exactly the inputs, labels, panels and style rules the block's markup is made of |
| CodeBlocks.CodeBlockChildren | src/templates/blocks.ts:505-536 | with several sections the block starts with one input per tab, followed by the style, the header and the body; with one section it is only the header and the body |
| CodeBlocks.CodeBlockMarkup | src/templates/blocks.ts:532 | the block's container carries the block id |
| CodeBlocks.CodeOutcome | src/templates/blocks.ts:361-427 | without sections the block is the placeholder and the counter is unchanged; with sections it carries the id of the current counter, which advances by one; either way the loaded languages grow as the sections say |
| MediaBlocks.MathJustify | src/templates/blocks.ts:545-558 | the formula is justified `flex-start` for a left alignment, `flex-end` for right (case-insensitively), and `center` for anything else |
| MediaBlocks.MathContainer | src/templates/blocks.ts:560-573 | the container holds KaTeX's markup of the expression unescaped, with the justification in its inline style |
| MediaBlocks.RenderMath | src/templates/blocks.ts:539-579 | a math block renders if and only if it has a non-empty expression, as its container in the spacing wrapper |
| MediaBlocks.AudioSource | src/templates/blocks.ts:586-589 | the `source` has the resolved path as `src`, and a `type` only for a given MIME type |
| MediaBlocks.RenderAudio | src/templates/blocks.ts:581-596 | an audio block renders if and only if it has a source, as a figure holding the player with its source and the caption |
| MediaBlocks.ImageTagAttrs | src/templates/blocks.ts:616-618 | the image carries the resolved source and the alternative text, empty when missing |
| MediaBlocks.RenderImage | src/templates/blocks.ts:598-632 | an image block renders if and only if its image has a source, as a figure with the image and, only when there is alternative text, that text as caption |
| MediaBlocks.GridCellScale | src/templates/blocks.ts:645 | the cell scale is always positive, and is the validated scale whenever that is positive |
| MediaBlocks.TransformOrigin | src/templates/blocks.ts:646-651 | the transform origin is `left` or `right` for those alignments and `center` for anything else |
| MediaBlocks.GridCellStyle | src/templates/blocks.ts:660-666 | a cell has an inline transform if and only if its scale is not 1 |
| MediaBlocks.RenderImageGrid | src/templates/blocks.ts:634-687 | an image grid renders if and only if it has images, with one figure per image, in order, each at the common scale and origin |
| MediaBlocks.NeighboursAreModular | src/templates/blocks.ts:720-721 | the previous and next slides are the neighbours modulo the number of slides, and going back then forward (or forward then back) returns to the same slide |
| MediaBlocks.CarouselNav | src/templates/blocks.ts:732-743 | the two navigation labels of a slide point at the inputs of the previous and of the next slide |
| MediaBlocks.CarouselSlide | src/templates/blocks.ts:725-744 | a slide is an `li` with its figure, and with the navigation labels only when there is more than one slide |
| MediaBlocks.CarouselInputs | src/templates/blocks.ts:707-716 | there is one radio input per slide, in order |
| MediaBlocks.CarouselSlides | src/templates/blocks.ts:718-746 | there is one slide per image, in order, each knowing its index and the total |
| MediaBlocks.CarouselMarkupShape | src/templates/blocks.ts:765-775 | the carousel carries its id and holds the style, one input per image, then the list of slides in order |
| MediaBlocks.CarouselOutcome | src/templates/blocks.ts:689-702 | a carousel is drawn if and only if it has images; it then takes the id of the current counter, which advances by one; otherwise the counter stays |
| MediaBlocks.IndividualCompare | src/templates/blocks.ts:801-824 | the side-by-side comparison shows the before and after images, each with its caption (`Before`/`After` when missing) |
| MediaBlocks.CompareControls | src/templates/blocks.ts:829-862 | the controls hold the range input, plus the summary only when percentages are shown and either image has alternative text |
| MediaBlocks.SliderCompareId | src/templates/blocks.ts:839-872 | the slider element, inside the two wrappers, carries the compare id |
| MediaBlocks.CompareOutcome | src/templates/blocks.ts:780-824 | a comparison is drawn if and only if both images have a source; the side-by-side type leaves the counter and the script flag alone |
| MediaBlocks.SliderOutcome | src/templates/blocks.ts:826-874 | a slider takes the id of the current counter, which advances by one, and sets the script flag; the script follows it if and only if the flag was not yet set |
| MediaBlocks.UnitClamp | src/templates/blocks.ts:887 | the clamped scale lies in 0..1 and equals the scale when that already lies there |
| MediaBlocks.YoutubeFrame | src/templates/blocks.ts:903-905 | the player embeds the video under the YouTube embed address |
| MediaBlocks.YoutubeVideo | src/templates/blocks.ts:880-883 | there is a video if and only if the reference is non-empty and yields a non-empty, valid id, which is then the one embedded |
| MediaBlocks.RenderYoutube | src/templates/blocks.ts:877-912 | a YouTube block renders if and only if it has a valid video, as the player at the clamped width |
| MediaBlocks.ChartBaseTitle | src/templates/blocks.ts:933-945 | the chart title is its title, else the first dataset's label, else the type plus ` chart`, else `chart` |
| MediaBlocks.ChartTargetWidth | src/templates/blocks.ts:921-922 | the width the chart is rendered at lies within the content width bounds |
| MediaBlocks.ChartFigure | src/templates/blocks.ts:948-958 | without an image the figure is the placeholder; with one it shows the image, with the trimmed title (or `Chart visualization` when empty) as alternative text |
| MediaBlocks.ChartMaxWidth | src/templates/blocks.ts:964-966 | the maximum width is the image's width when non-zero, else the target width |
| MediaBlocks.RenderChart | src/templates/blocks.ts:914-971 | a chart block renders if and only if it has data, as the figure of the image the page has for it, or the placeholder |
| BlockRender.KindOf | src/templates/blocks.ts:981-1002 | a tag outside the table selects the fallback under that tag, and a missing tag is looked up as `""` |
| BlockRender.KindOfTagOf | src/templates/blocks.ts:981-999 | every template of the table is selected by its own key |
| BlockRender.TagOfKindOf | src/templates/blocks.ts:981-999 | a tag that selects a template is exactly that template's key: the table has one key per template |
| BlockRender.MissingTagIsOther | src/templates/blocks.ts:1002 | a block without a type falls back like an unknown one |
| BlockRender.Placeholder | src/templates/blocks.ts:973-977 | the unsupported-block and graph placeholders are one `div` holding only their notice |
| BlockRender.NextState | src/templates/blocks.ts:350-357 | a block moves at most its own counter, by at most one; only a code block loads languages, and only a comparison can set the script flag, which is never cleared |
| BlockRender.CodeTemplateAgrees | src/templates/blocks.ts:361-427 | the code template advances the session exactly as the session step says |
| BlockRender.CarouselTemplateAgrees | src/templates/blocks.ts:689-702 | the carousel template advances the carousel counter exactly as the session step says |
| BlockRender.CompareTemplateAgrees | src/templates/blocks.ts:780-875 | the comparison template advances the compare counter and the script flag exactly as the session step says |
| BlockRender.DispatchAsWritten | src/templates/blocks.ts:981-1003 | the lookup on a plain object consults the table if and only if the tag is not an inherited member name; `toString` yields `[object Undefined]`, and `constructor` yields a non-string |
| BlockRender.AsWrittenDiffersOnlyOnPrototypeKeys | src/templates/blocks.ts:1001-1003 | the lookup as written renders what the table renders exactly off the inherited member names, and on those its result does not depend on the table |
| BlockRender.SessionAgreesOffPrototype | src/templates/blocks.ts:1001-1003 | for every tag that is not an inherited member name, the modelled dispatch renders what the lookup as written renders |
| BlockRender.ToStringShowsObjectUndefined | src/templates/blocks.ts:981-1003 | for the tag `toString` the source shows `[object Undefined]` whatever the table holds, where the modelled dispatch takes the unsupported-block fallback |
| BlockRender.KindOfPrototype | src/templates/blocks.ts:981-999 | no inherited member name is one of the table's own keys |
| BlockRender.Fragments | src/templates/renderBlocks.ts:8-10 | dropping the null results keeps at most one fragment per block |
| BlockRender.StateStep | src/templates/renderBlocks.ts:8-9 | each block is rendered in the session the blocks before it left |
| BlockRender.FragmentsStep | src/templates/renderBlocks.ts:8-10 | one more block appends its fragment, when it has one, after those of the blocks before it |
| BlockRender.EmptyContent | src/templates/renderBlocks.ts:7-12 | an empty content list renders to the empty string and leaves the session alone |
| BlockRender.CounterMonotone | src/templates/blocks.ts:350-352 | the instance counters never go back along a page |
| BlockRender.IdsDrawnAreDistinct | src/templates/blocks.ts:350-353 | a block that draws an id from a counter leaves it strictly below what any later block sees, so ids drawn along a page are pairwise distinct |
| BlockRender.CodeBlockIdsDistinctInPage | src/templates/blocks.ts:427-532 | two code blocks of one page that both have sections carry different ids |
| BlockRender.ScriptFlagMonotone | src/templates/blocks.ts:353-357 | once set, the script flag stays set for the rest of the page |
| BlockRender.CompareScriptEmittedOnce | src/templates/blocks.ts:826-874 | after a slider comparison has been rendered, every later slider comes without the script |
| BlockRender.RenderSession.RenderContentBlock | src/templates/blocks.ts:1001-1003 | the fragment is that of the template the block's tag selects, and the session advances as that template advances it |
| BlockRender.RenderSession.RenderBlocks | src/templates/renderBlocks.ts:7-12 | the page's blocks are rendered in order through the session, null results dropped and the fragments joined with line breaks; the session ends where the specification's fold ends |
| PageShell.IdSet | src/render/structure/pageShell.ts:446 | the set holds exactly the ids of the list |
| PageShell.AddAll | src/render/structure/pageShell.ts:446-453 | adding each id of a list in turn gives the set plus exactly those ids |
| PageShell.ComputeExpandedCategoryIds | src/render/structure/pageShell.ts:435-457 | the loop computes exactly the specified expanded set: the active document's parent and ancestors when it is known, plus the active category and its ancestors when it is known |
| PageShell.ExpandedUnknown | src/render/structure/pageShell.ts:440-455 | empty or unknown active ids expand nothing |
| PageShell.ExpandedAreCategories | src/render/structure/pageShell.ts:435-457 | in a well-formed index keyed by id, every expanded id is a category of the index |
| PageShell.ExpandedForDocument | src/render/structure/pageShell.ts:440-448 | for a known active document the parent adds nothing new: the expanded set is exactly its ancestors |
| PageShell.ExpandedInBuiltIndex | src/render/structure/pageShell.ts:435-457 | in the index the navigation builder produces, every expanded id is a category |
| PageShell.TrailItems | src/render/structure/pageShell.ts:502-516 | one item per segment, in order, with its label; the last item and only it is the current page, and an item links to its segment's href if and only if it is not the last and the href is non-empty |
| PageShell.TrailNodes | src/render/structure/pageShell.ts:502-516 | one list item per trail item, in order |
| PageShell.BreadcrumbShape | src/render/structure/pageShell.ts:497-521 | an empty trail renders nothing; otherwise one `li` per segment in order, marked `aria-current="page"` and without separator if and only if it is the last, and starting with a link if and only if its item links |
| PageShell.AncestorTrail | src/render/structure/renderCategory.ts:127-136 | the trail is the ancestors the index holds, in order, each with its title and a link to its page, followed by the page's own title without a link |
| PageShell.AncestorTrailLinks | src/render/structure/renderDocument.ts:51-62 | when every ancestor is in the index there is one segment per ancestor plus the page, and when hrefs are never empty every ancestor segment links to its category's page |
| PageShell.Found | src/render/structure/renderCategory.ts:128-130 | looking the ids up and dropping misses keeps at most one entry per id |
| PageShell.FoundEmpty | src/render/structure/renderCategory.ts:128-130 | nothing is found if and only if no id is a key of the map |
| PageShell.FoundAll | src/render/structure/renderCategory.ts:128-130 | when every id is a key, the entries are found one for one, in order |
| PageShell.DocLinkViewOf | src/render/structure/pageShell.ts:279-301 | a document link is active if and only if it is the active document, and nested if and only if its depth is positive |
| PageShell.DocLinkViews | src/render/structure/pageShell.ts:327-334 | one document link per document, in order |
| PageShell.CategoryViewOf | src/render/structure/pageShell.ts:303-349 | a category node keeps its id and title, is expanded if and only if its id is in the expanded set, is active if and only if it is the active category, lists the documents the index holds one level deeper, and (within the nesting bound) one child node per child the index holds |
| PageShell.NestedIffResolvable | src/render/structure/pageShell.ts:351-355 | a category has nested content if and only if one of its document ids or child ids is found in the index |
| PageShell.RowClassChoice | src/render/structure/pageShell.ts:286-325 | a row's class is the base, the depth class, the theme's row class, then the active class for an active row and the hover class for any other |
| PageShell.CategoryLinkTagged | src/render/structure/pageShell.ts:357-385 | the category link carries `data-category-link` if and only if there is nested content |
| PageShell.ToggleShape | src/render/structure/pageShell.ts:361-371 | the fold button exists if and only if there is nested content; it then reports the folding state in `aria-expanded` and rotates its caret if and only if collapsed |
| PageShell.NestedShape | src/render/structure/pageShell.ts:373-379 | the folding container exists if and only if there is nested content, and is hidden if and only if collapsed |
| PageShell.CategoryNodeShape | src/render/structure/pageShell.ts:381-392 | the link tag, the fold button and the folding container are all present if and only if there is nested content, and then all three agree on the folding state |
| PageShell.StandaloneSection | src/render/structure/pageShell.ts:402-415 | the Standalone section exists if and only if there are standalone documents, with one link per document |
| PageShell.RootViews | src/render/structure/pageShell.ts:417-425 | one category node per root of the tree, in order, at depth zero |
| PageShell.SidebarFollowsTree | src/render/structure/pageShell.ts:417-432 | the sidebar list holds one node per root category, in the order of the tree |
| PageShell.LogoText | src/render/structure/pageShell.ts:528 | the logo text is the branding's text whenever it is given (even empty), else the version label |
| PageShell.LogoAlt | src/render/structure/pageShell.ts:529 | the logo's alternative text is the branding's when given, else the logo text |
| PageShell.LogoImage | src/render/structure/pageShell.ts:530-532 | the logo image exists if and only if the branding names a non-empty source, and then carries that source and the alternative text |
| PageShell.Head | src/render/structure/pageShell.ts:643-648 | the head holds the charset, the viewport, the title `title | versionLabel`, the main stylesheet and then one link per extra stylesheet, in order |
| PageShell.BodyAttrs | src/render/structure/pageShell.ts:638-639 | the body carries the storage key `sst-docs-nav-` plus the version id |
| PageShell.RenderPageShell | src/render/structure/pageShell.ts:595-673 | the page is the serialized shell of the options |
| PageShell.ShellBreadcrumbShown | src/render/structure/pageShell.ts:615-617 | the breadcrumb shows nothing when the option is missing or empty, and a trail otherwise |
| CategoryPage.CategoryContext | src/render/structure/renderCategory.ts:103-108 | the category's blocks are rendered with the theme as styles, the category id as current path and the page's two resolvers |
| CategoryPage.ChildCards | src/render/structure/renderCategory.ts:52-54 | one card per child category the index holds |
| CategoryPage.DocCards | src/render/structure/renderCategory.ts:22-24 | one card per document the index holds |
| CategoryPage.CardsFollowCategory | src/render/structure/renderCategory.ts:22-82 | when the index holds every child and document the category names, the cards are one per child in order, each linking to its page, then one per document in order |
| CategoryPage.CardsEmptyIff | src/render/structure/renderCategory.ts:82-87 | the grid is empty if and only if none of the category's child or document ids is in the index |
| CategoryPage.CardNode | src/render/structure/renderCategory.ts:26-48 | a card links to its page and holds the heading, plus the description if and only if it is a non-empty string |
| CategoryPage.CardsSection | src/render/structure/renderCategory.ts:82-89 | without cards the section is the "This category is empty." notice; otherwise one card node per card, in order |
| CategoryPage.ContentSection | src/render/structure/renderCategory.ts:110-112 | the category's rendered blocks appear, wrapped, if and only if the category has content; otherwise nothing |
| CategoryPage.CategoryPageOptions | src/render/structure/renderCategory.ts:183-193 | the shell is titled by the category, with the category active, no active document and no shell breadcrumb |
| CategoryPage.RenderCategoryPage | src/render/structure/renderCategory.ts:92-194 | the page is the serialized shell around the category's article |
| CategoryPage.CategoryPageInIndex | src/render/structure/renderCategory.ts:127-161 | for a category of a well-formed index, the trail has one segment per breadcrumb entry, every ancestor segment links to its category's page, the last is the category itself as current page, and the sidebar expands exactly the category and its ancestors |
| DocumentPage.DocumentContext | src/render/structure/renderDocument.ts:25-30 | the document's blocks are rendered with the theme as styles, the document id as current path and the page's two resolvers |
| DocumentPage.DescriptionNode | src/render/structure/renderDocument.ts:34-38 | the description paragraph exists if and only if the description is a non-empty string, and then holds it as escaped text |
| DocumentPage.DocumentPageOptions | src/render/structure/renderDocument.ts:109-119 | the shell is titled by the document, with the document active, no active category and no shell breadcrumb |
| DocumentPage.RenderDocumentPage | src/render/structure/renderDocument.ts:14-120 | the page is the serialized shell around the document's article |
| DocumentPage.DocumentPageInIndex | src/render/structure/renderDocument.ts:51-87 | for a document of a well-formed index, the trail has one segment per breadcrumb entry, every ancestor segment links to its category's page, the last is the document as current page, and the sidebar expands exactly its ancestors |
| LandingPage.SummaryCard | src/render/structure/renderLanding.ts:15-34 | a top-level category's card links to its page, shows its title as heading, and its description if and only if it is non-empty |
| LandingPage.CategorySection | src/render/structure/renderLanding.ts:64-82 | with an empty tree only the version heading; otherwise a section with the heading, the introduction and one card per top-level category in tree order |
| LandingPage.StandaloneList | src/render/structure/renderLanding.ts:38-90 | the standalone section exists if and only if there are standalone documents, with one item per document in order |
| LandingPage.LandingPageOptions | src/render/structure/renderLanding.ts:99-111 | the shell is titled by the version label, with nothing active and a breadcrumb of the version label alone, shown as the current page |
| LandingPage.RenderVersionLanding | src/render/structure/renderLanding.ts:56-112 | the page is the serialized shell around the landing content |
| VersionRender.FirstNonStandalone | src/render/renderVersion.ts:26-30 | the position found is the first document in insertion order that is not standalone, and none is found only when every document is standalone |
| VersionRender.GetDefaultDocument | src/render/renderVersion.ts:19-34 | the scan with early returns yields exactly the specified default: the first standalone document, else the first non-standalone document, else the first document, else none |
| VersionRender.FirstNonStandaloneAt | src/render/renderVersion.ts:26-30 | a document whose predecessors are all standalone and which is not is the one the scan returns |
| VersionRender.DefaultDocumentChoice | src/render/renderVersion.ts:19-34 | there is a default document if and only if the version has a document; without standalone documents the default is a document of the index, and it is not standalone whenever some document is not |
| VersionRender.BelowTotal | src/render/renderVersion.ts:235-238 | the string order used by `.sort()` is asymmetric and total on distinct strings |
| VersionRender.Insert | src/render/renderVersion.ts:235-238 | inserting into an ascending list keeps it ascending and adds exactly the one string |
| VersionRender.SortStrings | src/render/renderVersion.ts:235-238 | sorting yields the same strings, as a multiset, in ascending order |
| VersionRender.SortedUniqueStrict | src/render/renderVersion.ts:235-238 | the manifest lists hold exactly the values given, each once, in strictly ascending order |
| VersionRender.DropTrailingSlash | src/render/renderVersion.ts:240 | one trailing slash is removed when there is one, and the string is otherwise unchanged |
| VersionRender.StaticStylesPathOfConfig | src/render/renderVersion.ts:230-240 | with the static-styles directory the configuration sets up, the manifest's static path is `../static-styles` for a separate build and `../../static-styles` otherwise, and the assets manifest sits directly inside it |
| VersionRender.ClimbOut | src/render/renderVersion.ts:230 | from a directory below `dir`, `dir/static-styles` is reached by one `..` per segment below `dir` |
| VersionRender.ManifestOf | src/render/renderVersion.ts:231-241 | the manifest names the version and `index.html`, lists the category pages, document pages, charts and media each sorted without duplicates, and puts the assets manifest under the static path |
| VersionRender.PlaceholderOptions | src/render/renderVersion.ts:154-169 | the placeholder landing page is titled by the version label, has a breadcrumb of the version label alone, nothing active, and the "not available yet" content |
| VersionRender.LandingJobs | src/render/renderVersion.ts:134-148 | the landing page renders blocks only when there is a default document |
| VersionRender.CategoryJobs | src/render/renderVersion.ts:173-196 | one job per category of the index, in insertion order |
| VersionRender.DocumentJobs | src/render/renderVersion.ts:198-221 | one job per document of the index, in insertion order, each on its own page |
| VersionRender.LandingCount | src/render/renderVersion.ts:134 | there is one landing job exactly when there is a default document |
| VersionRender.JobsCount | src/render/renderVersion.ts:134-221 | a run has one job per page: the landing page's first (rendering the default document at `index.html`), then one per category, then one per document |
| VersionRender.CategoryJobAt | src/render/renderVersion.ts:173-196 | the job after the landing job and `i` category jobs is the `i`-th category's |
| VersionRender.DocumentJobAt | src/render/renderVersion.ts:198-221 | the job after the landing and category jobs and `j` document jobs is the `j`-th document's |
| VersionRender.RunJobs | src/render/renderVersion.ts:134-221 | a successful run gives one block markup per job and keeps the chart table well formed |
| VersionRender.RunJobsStep | src/render/renderVersion.ts:173-221 | the run of one more job is the run so far, then that job's chart preparation (whose failure ends the run) and its blocks, rendered with the images stored so far |
| VersionRender.RunJobsErrSticks | src/render/renderVersion.ts:136-204 | once a chart fails, running further jobs fails with the same error |
| VersionRender.RenderJobBlocks | src/render/renderVersion.ts:179-193 | a page prepares its charts first; it fails exactly when that preparation fails, leaving the session alone, and otherwise renders its blocks with the charts stored so far |
| VersionRender.RunJob | src/render/renderVersion.ts:173-221 | one job extends a successful run by its blocks, or ends the whole run with its error |
| VersionRender.RunRemainingJobs | src/render/renderVersion.ts:173-221 | the loop over the remaining jobs yields the whole run's blocks, or the error of the first chart that fails |
| VersionRender.RenderVersionBlocks | src/render/renderVersion.ts:53-223 | a chart cache for the site directory is made; the landing page, every category and every document then render in order; the result is the run's blocks and the cache's list of stored images, or the run's error |
| VersionHrefs.PageHref | src/render/renderVersion.ts:118-125 | a page link is never empty and always starts with `.` |
| VersionHrefs.PageHrefLeadsToTarget | src/render/renderVersion.ts:118-125 | following a page link from the page's directory reaches the target page under the site directory |
| VersionHrefs.SiteOutDirPlain | src/render/renderVersion.ts:42-45 | the version directory is the output directory plus the version id, and the site directory is a plain path |
| VersionHrefs.ToLogicalHref | src/render/renderVersion.ts:66-70 | a logical href is never empty (`./` for the page's own directory) |
| VersionHrefs.LogicalHrefLeadsToTarget | src/render/renderVersion.ts:60-70 | following a logical href from the page's logical directory reaches the logical target |
| VersionHrefs.GlobalAssetHref | src/render/renderVersion.ts:72-82 | a stylesheet href is never empty, and in a separate build it starts with `.` |
| VersionHrefs.GlobalAssetLeadsToTarget | src/render/renderVersion.ts:72-82 | a stylesheet href reaches `static-styles/<file>` inside the version when inline, and the file in the static assets directory in a separate build |
| VersionHrefs.Dedupe | src/render/renderVersion.ts:107-109 | deduplication keeps exactly the values of the list, each once |
| VersionHrefs.DedupeDistinct | src/render/renderVersion.ts:107-109 | a list without repeats is its own deduplication |
| VersionHrefs.ExtraHrefs | src/render/renderVersion.ts:101-108 | one href per extra stylesheet, in order |
| VersionHrefs.ExtrasAreDistinctNames | src/render/renderVersion.ts:101-106 | the four extra stylesheet names are distinct single path segments |
| VersionHrefs.GlobalAssetHrefInjective | src/render/renderVersion.ts:72-82 | two different stylesheet names get different hrefs on the same page |
| VersionHrefs.AllExtrasLinked | src/render/renderVersion.ts:101-115 | deduplication removes nothing: every page links all four extra stylesheets, in order |
| VersionHrefs.IndexOf | src/render/renderVersion.ts:17 | the index found is the first occurrence of the character, and none is found only when it does not occur |
| VersionHrefs.MatchAfterPrefix | src/render/renderVersion.ts:17 | after the prefix, a match is a non-empty version id without `/`, then `/`, then a non-empty rest without line terminators, which together make up the input |
| VersionHrefs.MatchMediaPath | src/render/renderVersion.ts:84-88 | a match yields a non-empty version id without `/` and a non-empty rest without line terminators |
| VersionHrefs.AfterPrefixMatches | src/render/renderVersion.ts:17 | a version id, `/` and a path inside the version split back into exactly those two parts |
| VersionHrefs.PrefixStripped | src/render/renderVersion.ts:17 | after a leading `/` and any case spelling of `SST-Docs/data/`, matching continues with the rest |
| VersionHrefs.MediaPathMatches | src/render/renderVersion.ts:84-88 | every in-version media path matches with its own parts, whatever the case of the prefix |
| VersionHrefs.PrefixLowers | src/render/renderVersion.ts:17 | the prefix as the data loader writes it matches the case-insensitive pattern |
| VersionHrefs.MatchDecomposes | src/render/renderVersion.ts:17 | a match decomposes the path into an optional `/`, the prefix in some case, the version id, `/` and the rest |
| VersionHrefs.ReplaceBackslashes | src/render/renderVersion.ts:90 | every backslash becomes `/` and every other character is kept |
| VersionHrefs.ResolveAssetHref | src/render/renderVersion.ts:84-88 | a path that is not media, or is media of another version, is returned unchanged |
| VersionHrefs.MediaHrefLeadsToTarget | src/render/renderVersion.ts:84-99 | a rewritten media href reaches the file inside the version: from the page's logical directory inline, and from the page's real directory in a separate build |
| VersionPages.SiteTemplates | src/render/renderVersion.ts:154-170 | the placeholder template is the placeholder page of the run |
| VersionPages.LandingPageOf | src/render/renderVersion.ts:127-171 | the landing page is written at `index.html` under the site directory |
| VersionPages.CategoryPageAt | src/render/renderVersion.ts:173-196 | the `i`-th category page is written at the `i`-th category's place, from the `i`-th block markup |
| VersionPages.DocumentPageAt | src/render/renderVersion.ts:198-221 | the `j`-th document page is written at the `j`-th document's place, from the `j`-th block markup |
| VersionPages.CategoryPagePathAt | src/render/renderVersion.ts:174-195 | the `i`-th manifest entry of the categories is the `i`-th category's place, with forward slashes |
| VersionPages.DocumentPagePathAt | src/render/renderVersion.ts:199-220 | the `j`-th manifest entry of the documents is the `j`-th document's place, with forward slashes |
| VersionPages.ManifestListsCategoryPages | src/render/renderVersion.ts:195-235 | the manifest lists the place of every category page and nothing else, once each, in ascending order |
| VersionPages.ManifestListsDocumentPages | src/render/renderVersion.ts:220-236 | the manifest lists the place of every document page and nothing else, once each, in ascending order |
| VersionPages.VersionPagesOf | src/render/renderVersion.ts:127-221 | a run writes one page per category and document plus the landing page, the landing page first at `index.html` |
| VersionPages.WriteVersionPages | src/render/renderVersion.ts:127-246 | the pages written, in order, are exactly the run's pages, and the manifest is the version manifest of the index, charts and media |
| VersionPages.WriteLandingPage | src/render/renderVersion.ts:134-171 | the landing page written is the default document's page, or the placeholder |
| VersionPages.WriteCategoryPages | src/render/renderVersion.ts:173-196 | the loop writes every category page in insertion order and records each place for the manifest |
| VersionPages.WriteDocumentPages | src/render/renderVersion.ts:198-221 | the loop writes every document page in insertion order and records each place for the manifest |
| ChartAssets.ResolveChartRenderWidth | src/render/chartAssets.ts:62-68 | the render width always lies in 360..896, and a missing scale gives the full 896 |
| ChartAssets.Clamp | src/render/chartAssets.ts:292-295 | the clamped width lies in 360..896, equals the width inside that range, and the nearer bound outside it |
| ChartAssets.FullScaleWidth | src/render/chartAssets.ts:62-68 | a full-scale chart takes the whole content width |
| ChartAssets.SmallScaleWidth | src/render/chartAssets.ts:62-68 | every scale up to 0.4 gives the minimum width |
| ChartAssets.ResolveChartRenderHeight | src/render/chartAssets.ts:59-81 | radial charts are square; every other chart is at least 203 high and at least nine sixteenths of its width |
| ChartAssets.HeightIsIntegral | src/render/chartAssets.ts:77-80 | the height of a non-radial chart is the larger of 203 and nine sixteenths of the width rounded half up |
| ChartAssets.NormaliseChartType | src/render/chartAssets.ts:102-106 | the type is always a known chart type: the given one when known, else `bar` |
| ChartAssets.KeyFor | src/render/chartAssets.ts:291-298 | a chart's key records its data, the theme's chart colours and the width it is rendered at |
| ChartAssets.AssetHrefIn | src/render/chartAssets.ts:286-306 | the lookup finds an image if and only if one is stored under the key at the clamped width, and then gives an href starting with `.` |
| ChartAssets.ChartAssetManager.InfoFor | src/render/chartAssets.ts:350-360 | the stored info of a key records its width and height and the file `charts/chart-<hash>.png` under the version directory |
| ChartAssets.ChartAssetManager.constructor | src/render/chartAssets.ts:267-272 | a new manager stores nothing and keeps its theme, version directory, digest and renderer |
| ChartAssets.ChartAssetManager.Ensure | src/render/chartAssets.ts:308-367 | ensuring an image keeps the table well formed |
| ChartAssets.ChartAssetManager.EnsureAsset | src/render/chartAssets.ts:308-367 | the method does exactly what the specification of `ensureAsset` says: the stored info, a newly stored one, or the render error with nothing stored |
| ChartAssets.ChartAssetManager.Prepare | src/render/chartAssets.ts:274-284 | preparing keeps the table well formed |
| ChartAssets.ChartAssetManager.PrepareContent | src/render/chartAssets.ts:274-284 | the loop renders every chart block's image in block order, once per key, and stops at the first render error, as the specification says |
| ChartAssets.ChartAssetManager.GetAssetHref | src/render/chartAssets.ts:286-306 | the page finds an image if and only if one is stored for the data at the clamped width, and then gets an href starting with `.` |
| ChartAssets.ChartAssetManager.ListAssets | src/render/chartAssets.ts:369-373 | one entry per stored image, in insertion order: `charts/` plus its file name |
| ChartAssets.RelativeBelow | src/render/chartAssets.ts:371 | a path below a directory is reached from it by its own tail |
| ChartAssets.EnsureMemoised | src/render/chartAssets.ts:314-316 | a repeated request for a stored key returns the stored info and renders nothing |
| ChartAssets.EnsureFailureKeepsMap | src/render/chartAssets.ts:363-366 | a render failure is reported and stores nothing |
| ChartAssets.PrepareGrows | src/render/chartAssets.ts:274-284 | preparing only adds images, and never changes one already stored |
| ChartAssets.PrepareThenLookup | src/render/chartAssets.ts:274-284 | after a successful preparation, every chart block's key at its render width is stored with its own info |
| ChartAssets.PrepareRoundTrip | src/render/chartAssets.ts:274-306 | after a successful preparation, a page looking a chart up at its render width finds an image of that width and of the height for its type, with an href starting with `.` |
| CopyAssets.StripProtocol | src/render/copyAssets.ts:28-29 | the result is a suffix of the value, and whatever is removed is followed by `/` or by nothing |
| CopyAssets.StripProtocolRooted | src/render/copyAssets.ts:28-29 | a value that is empty or starts with `/` has no protocol and is left as it is |
| CopyAssets.StripProtocolIdempotent | src/render/copyAssets.ts:28-29 | stripping the protocol twice is stripping it once |
| CopyAssets.StripProtocolUrl | src/render/copyAssets.ts:28-29 | `scheme://host/path` with a letters-only scheme and a host without `/` loses exactly `scheme://host` |
| CopyAssets.NormalizePublicPathTrimmed | src/render/copyAssets.ts:31-32 | the normalised public path neither starts nor ends with `/`, and it is empty exactly when the value is absent or only slashes |
| CopyAssets.Segments | src/render/copyAssets.ts:40-43 | every segment is non-empty and free of `/` |
| CopyAssets.VersionPrefix | src/render/copyAssets.ts:45-56 | the prefix a path must start with holds at least the version |
| CopyAssets.PrefixAfterAt | src/render/copyAssets.ts:45-56 | the prefix is the base segments, then the product when there is one, then the version, at those positions |
| CopyAssets.MismatchAt | src/render/copyAssets.ts:45-55 | a missing or different segment anywhere in the prefix means the value is not inside the version |
| CopyAssets.AgreesThroughout | src/render/copyAssets.ts:45-58 | agreement on every prefix position yields the remaining segments joined with `/` |
| CopyAssets.MatchMediaPath | src/render/copyAssets.ts:34-59 | the loop over the base segments and the product and version checks return exactly the in-version part of the value |
| CopyAssets.MatchParts | src/render/copyAssets.ts:45-58 | the segment comparisons return the rest after the prefix, or nothing on the first mismatch |
| CopyAssets.SegmentsOfJoin | src/render/copyAssets.ts:43 | splitting a join of non-empty, slash-free segments gives those segments back |
| CopyAssets.RootedJoinParts | src/render/copyAssets.ts:39-43 | a rooted join of non-empty, slash-free segments has exactly those segments as its parts |
| CopyAssets.AfterPrefixRoundTrip | src/render/copyAssets.ts:39-58 | a rooted path built from a prefix and further segments matches that prefix and gives back the further segments |
| CopyAssets.VersionPrefixSegments | src/render/copyAssets.ts:40-56 | the version's prefix is made of non-empty, slash-free segments when the product and version names are |
| CopyAssets.MatchRoundTrip | src/render/copyAssets.ts:34-59 | a rooted path made of the public base, product, version and further segments is inside the version, and the match returns the further segments |
| CopyAssets.MatchIgnoresHost | src/render/copyAssets.ts:28-39 | a full URL matches exactly as its path does, whatever its scheme and host |
| CopyAssets.InsideVersionRelative | src/render/copyAssets.ts:58 | every in-version part the match returns is relative: it does not start with `/` |
| CopyAssets.NormalizeRelative | src/render/copyAssets.ts:280 | normalising a relative path never gives the empty string |
| CopyAssets.Collapse | src/render/copyAssets.ts:280 | the normalised segments contain no empty and no `.` segment |
| CopyAssets.StripLeadingSeparators | src/render/copyAssets.ts:280 | the result starts with neither `/` nor `\` |
| CopyAssets.MediaPathsOfAppend | src/render/copyAssets.ts:286-296 | matching the strings of two lists finds the paths of the first, then those of the second |
| CopyAssets.FoundIsMatchedStrings | src/render/copyAssets.ts:269-298 | the walk over a value adds exactly the media paths of its non-empty strings, in document order; numbers, booleans, null and strings outside the version add nothing |
| CopyAssets.FoundAllIsMatchedStrings | src/render/copyAssets.ts:286-296 | the walk over a list of values adds exactly the media paths of their strings, in order |
| CopyAssets.MediaPathsOfSource | src/render/copyAssets.ts:277-282 | every collected path comes from a string of the value that lies inside the version |
| CopyAssets.MediaPathsOfHas | src/render/copyAssets.ts:277-282 | every string inside the version contributes its normalised path |
| CopyAssets.FoundAllAppend | src/render/copyAssets.ts:286-296 | walking two lists one after the other finds the paths of each in turn |
| CopyAssets.CollectedPathsMeaning | src/render/copyAssets.ts:300-317 | a path is in the set exactly when some non-empty string of the scanned content lies inside the version and normalises to it, and no path is held twice |
| CopyAssets.TopLevelContentOnly | src/render/copyAssets.ts:309-311 | only the top-level categories' own content is scanned: their documents and children do not change the set |
| CopyAssets.FoundAllSameVersion | src/render/copyAssets.ts:269-298 | the walk depends on the entry only through its product and version |
| CopyAssets.FoundSameVersion | src/render/copyAssets.ts:269-298 | the walk over one value depends on the entry only through its product and version |
| CopyAssets.MediaCollector.constructor | src/render/copyAssets.ts:304 | the set starts empty |
| CopyAssets.MediaCollector.Add | src/render/copyAssets.ts:281 | `paths.add` appends a path not yet held and leaves the set alone otherwise, recording the attempt |
| CopyAssets.MediaCollector.CollectFromValue | src/render/copyAssets.ts:269-298 | the walk over a value records exactly the paths the specification walk finds for it |
| CopyAssets.MediaCollector.CollectAll | src/render/copyAssets.ts:287-296 | the `forEach` over items or values records the paths of each in turn |
| CopyAssets.CollectMediaPaths | src/render/copyAssets.ts:300-317 | the method's set, in insertion order, is the collected path list whose meaning is proved above |
| CopyAssets.ReplaceBackslashes | src/render/copyAssets.ts:403 | the rewrite keeps the length, leaves no backslash and keeps every other character |
| CopyAssets.ReplaceBackslashesFixed | src/render/copyAssets.ts:403 | a path without backslashes is left as it is |
| CopyAssets.ReplaceAll | src/render/copyAssets.ts:445 | each path of the list is rewritten in place |
| CopyAssets.MediaPathListMeaning | src/render/copyAssets.ts:442-446 | the media list is ascending and a permutation of the rewritten collected paths; without backslashes it is the sorted set itself |
| CopyAssets.MediaPaths | src/render/copyAssets.ts:442-446 | the method computes the media path list |
| CopyAssets.CssFiles | src/render/copyAssets.ts:161-163 | the names kept are exactly those of the files ending in `.css` |
| CopyAssets.FirstIndexCss | src/render/copyAssets.ts:168 | the position found is the first `index-*.css` name, and none means there is no such name |
| CopyAssets.PrimaryStylesheet | src/render/copyAssets.ts:167-168 | the chosen stylesheet is one of the files: the first `index-*.css` (case-insensitive) when there is one, the first file otherwise |
| CopyAssets.FirstWithCss | src/render/copyAssets.ts:157-166 | the root chosen is the first that can be listed and offers a stylesheet, and none means no root does |
| CopyAssets.LocateStylesheet | src/render/copyAssets.ts:153-184 | the loop over the roots returns the stylesheet of the first root that has one, or nothing |
| CopyAssets.KatexUrlAt | src/render/copyAssets.ts:27 | a match found at the front really is `url(`, the quote and the assets path |
| CopyAssets.KatexUrlFound | src/render/copyAssets.ts:27 | `url(` with a single, a double or no quote, followed by the assets path, is a match with that quote |
| CopyAssets.PatternKeepsPlain | src/render/copyAssets.ts:204 | a global replace keeps text in which no match starts, whatever follows it |
| CopyAssets.PatternMatch | src/render/copyAssets.ts:204 | a global replace puts the replacement for a match at the front and goes on after it |
| CopyAssets.KatexMatch | src/render/copyAssets.ts:204 | the pattern matches where a KaTeX url starts, and its replacement keeps the quote and points at `./` |
| CopyAssets.KatexMatcher | src/render/copyAssets.ts:27 | the KaTeX pattern consumes at least one character whenever it matches |
| CopyAssets.RewriteNoMatch | src/render/copyAssets.ts:204 | a stylesheet without a KaTeX url is copied unchanged |
| CopyAssets.RewriteKeepsPlain | src/render/copyAssets.ts:204 | text before the first KaTeX url is copied unchanged |
| CopyAssets.RewriteMatch | src/render/copyAssets.ts:204 | each KaTeX url keeps its quote and is redirected to the stylesheet's own directory |
| CopyAssets.CollectFilesRecursive | src/render/copyAssets.ts:390-407 | the walk lists the files of the tree in listing order, directories expanded in place, paths joined with `/` |
| CopyAssets.NestedPathsHaveSlash | src/render/copyAssets.ts:398 | below a non-empty prefix every listed path contains `/` |
| CopyAssets.ReplacedIsManifest | src/render/copyAssets.ts:402-403 | a path that becomes the manifest's name under the separator rewrite already was that name |
| CopyAssets.ManifestExcludesItself | src/render/copyAssets.ts:402-420 | the manifest never lists itself |
| CopyAssets.TopLevelFileListed | src/render/copyAssets.ts:397-420 | each other top-level file is listed under its own name, and the list is sorted |
| CopyAssets.FilesInHas | src/render/copyAssets.ts:397-405 | everything an entry contributes is in the listing of its directory |
| CopyAssets.NestedFileListed | src/render/copyAssets.ts:398-400 | a file inside a top-level directory is listed as directory, `/`, name |
| CopyAssets.MediaCopies | src/render/copyAssets.ts:325-345 | nothing is copied unless the build is separate and there are media paths; otherwise one copy per path |
| CopyAssets.ResolveName | src/render/copyAssets.ts:331-335 | resolving a plain name appends it to the directory |
| CopyAssets.VersionDirNames | src/render/copyAssets.ts:331-335 | the version directory is the root, then the product when there is one, then the version |
| CopyAssets.ResolveRelative | src/render/copyAssets.ts:339-345 | a relative path of plain names is appended segment by segment |
| CopyAssets.MediaPathUnder | src/render/copyAssets.ts:339-345 | a plain relative media path lands below the root's copy of the version |
| CopyAssets.MediaCopiesKeepPlace | src/render/copyAssets.ts:337-345 | each media file is copied from its place under the public data root to the same place under the output directory |
| CopyAssets.ExtraStylesheetsWritten | src/render/copyAssets.ts:20-23 | the extra stylesheets the pages link are exactly the ones written next to the site stylesheet |
| Cli.ParseCliArgs | src/index.ts:78-118 | the loop over the arguments, a value flag consuming the next one, yields the options of the recursive reading of the command line |
| Cli.ApplyIgnoresTail | src/index.ts:85-114 | an argument that takes no value, or whose value is present, reads nothing beyond what it consumes |
| Cli.ParseShift | src/index.ts:85-115 | arguments put in front shift the loop without changing what it does |
| Cli.ParseSplits | src/index.ts:85-115 | when the loop lands on the end of a first part, parsing the whole continues from the options of that part |
| Cli.ParseAppend | src/index.ts:78-118 | the parser is a left fold: parsing a cleanly ending command line followed by more arguments is parsing the rest from the options of the first part |
| Cli.FlagAppends | src/index.ts:85-115 | an argument that reads no value acts on the options the arguments before it produced |
| Cli.NotAssignment | src/index.ts:90-103 | an argument whose third character is not `v`, `d`, `b` or `o` is none of the `--x=` forms |
| Cli.SwitchAppends | src/index.ts:104-114 | `--inline`, `--separate-build`, `--quiet`, `--no-quiet` and `--help` each set exactly their own field; any other such argument changes nothing |
| Cli.ModeLastWins | src/index.ts:104-107 | `--inline` turns the separate build off and `--separate-build` turns it on, whatever came before: the last one wins |
| Cli.QuietLastWins | src/index.ts:108-113 | `--quiet` and `--no-quiet` set quiet mode, the last one winning, and `--help` only sets its flag |
| Cli.VersionAppends | src/index.ts:87-89 | `--version <id>` and `-v <id>` append a non-empty id after the ones before; an empty or missing id is skipped |
| Cli.VersionEqualsAppends | src/index.ts:90-91 | `--version=<id>` appends the id, cut at a second `=` if there is one |
| Cli.VersionEqualsForm | src/index.ts:90-91 | `--version=<rest>` takes no following argument, and its value is the rest up to its first `=` |
| Cli.PathFlagsTakeNext | src/index.ts:92-103 | `--data`, `--base` and `--out` take the next argument as it is, and keep the earlier value when there is none |
| Cli.UnknownIgnored | src/index.ts:85-115 | an unrecognised argument changes nothing |
| Cli.NormalizeBooleanCaseBlind | src/index.ts:120-125 | the reading of a boolean word ignores ASCII case |
| Cli.NormalizeBooleanTrimBlind | src/index.ts:120-125 | the reading of a boolean word ignores surrounding white space |
| Cli.NormalizePlainWord | src/index.ts:120-125 | a word without surrounding white space or upper-case letters is read as itself: `true`, `1`, `yes`, `on` as true, `false`, `0`, `no`, `off` as false, anything else as unset |
| Cli.NormalizeBooleanRoundTrip | src/index.ts:120-125 | the words `true` and `false` read back as the booleans they name |
| Cli.FirstSomeIsFirst | src/index.ts:128-134 | the first set value is taken, and nothing is taken only when no value is set |
| Cli.EnvValues | src/index.ts:128-133 | there is one reading per environment key, in order |
| Cli.ReadEnvSeparateOverride | src/index.ts:127-135 | the loop over the two environment keys returns the first value that reads as a boolean, skipping absent and unreadable ones |
| Cli.SeparateBuildPrecedence | src/index.ts:137-151 | the command line wins over the environment, which wins over the settings file; with none of them set the build is inline |
| Cli.StaticStylesAppended | src/index.ts:193-195 | `static-styles` is appended to the directory as one name |
| Cli.OutputDirsChoice | src/index.ts:180-195 | `--out`, else the settings' directory, else `dist/html` is the base; a separate build writes there below the project root, an inline one into the data directory and warns exactly when `--out` is non-blank; the shared styles sit directly below the output directory |
| ValidateOutput.HelpIsNoAssignment | src/validateOutput.ts:25-33 | the help flags are not `--out=` forms, so they reach the help branch |
| ValidateOutput.ParseArgs | src/validateOutput.ts:15-51 | the loop over the arguments, `--out` consuming the next one and a help flag ending the run, yields the recursive reading of the command line |
| ValidateOutput.ParseShift | src/validateOutput.ts:23-48 | arguments put in front shift the loop without changing what it does |
| ValidateOutput.ParseSplits | src/validateOutput.ts:23-48 | when the loop lands on the end of a first part, the rest is parsed from the options reached there, unless help was already asked for |
| ValidateOutput.HelpStops | src/validateOutput.ts:33-47 | a help flag the loop reaches ends parsing with the help outcome, whatever follows it |
| ValidateOutput.OutFlagsSetDir | src/validateOutput.ts:25-28 | `--out <dir>`, `--out-dir <dir>` and `--out=<dir>` set the directory; a trailing `--out` keeps the one before |
| ValidateOutput.SwitchesOneWay | src/validateOutput.ts:29-32 | `--allow-scripts` and `--no-fail-on-missing` only ever switch one way, and each changes its option only when it appears among the arguments |
| ValidateOutput.HelpNeedsFlag | src/validateOutput.ts:33-47 | the help outcome comes only from a help flag among the arguments |
| ValidateOutput.ScriptTagCaseBlind | src/validateOutput.ts:80 | the `<script\b` test ignores case |
| ValidateOutput.ScriptWordCaseBlind | src/validateOutput.ts:80 | whether a word is `script` does not depend on its case |
| ValidateOutput.ScriptTagFound | src/validateOutput.ts:80 | `<script` in any case, followed by the end of the text or a non-word character, is found wherever it sits |
| ValidateOutput.WordCharBlocks | src/validateOutput.ts:80 | a word character right after `<script`, as in `<scripts`, is no match at that place |
| ValidateOutput.ScriptTagKeptByPrefix | src/validateOutput.ts:80 | text put in front of a match keeps it |
| ValidateOutput.NoAngleNoTag | src/validateOutput.ts:80 | text without `<` has no match |
| ValidateOutput.Run | src/validateOutput.ts:53-96 | the directory check, the listing and the loop over the files give the outcome of the specification of a run |
| ValidateOutput.ScanStopsAtUnreadable | src/validateOutput.ts:76-105 | once the scan meets an unreadable file the files after it do not matter |
| ValidateOutput.ScanFilesMeaning | src/validateOutput.ts:76-105 | the scan fails exactly when some file is unreadable, naming the first; otherwise it reports a violation exactly when scripts are not allowed and some file has a script tag |
| ValidateOutput.RunSucceeds | src/validateOutput.ts:53-105 | a run exits with 0 exactly when a missing directory is waived, when there are no HTML files, or when every file was read and none has a script tag or scripts are allowed |
| ValidateOutput.ValidatorExit | src/validateOutput.ts:15-106 | every way the validator ends, the usage text included, exits with 0 or 1 |
| ValidateOutput.HelpExitsZero | src/validateOutput.ts:33-46 | a help flag the loop reaches ends the process with 0, whatever the output directory holds |
| ValidateOutput.ValidatorExitZero | src/validateOutput.ts:15-105 | the process exits with 0 exactly when help was asked for, or when the run with the parsed options succeeds: a waived missing directory, no HTML files, or every file read and none with a script tag (or scripts allowed) |

## Left out

- File and process effects (`mkdir`, `readFile`, `writeFile`, `copyFile`, `readdir`, `stat`, the glob, `console`, the logger) are not modelled, and neither is the act of ending the process; the validator's exit codes are `ValidateOutput.ValidatorExit`. Directory listings, file contents, whether a path exists and whether a chart renders are parameters. A write is the value that would be written. A failed read or copy that the source only logs is not modelled.
- The wall-clock `generatedAt` stamp of the version manifest is a parameter.
- The chart image itself (Chart.js through `ChartJSNodeCanvas`) and the Chart.js options object are not modelled. Whether a chart renders is a function parameter.
- The SHA-1 hash of the chart key is an opaque digest parameter over the key tuple (data, chart theme, width, height).
- KaTeX, Prism highlighting and language loading, `slugify`, `validateScale`, `getResponsiveWidth`, the YouTube id helpers, `SPACING_CLASSES`, `ALIGNMENT_CLASSES` and `CODE_LANGUAGE_CONFIG` are opaque parameters. Which languages Prism's `loadLanguages` fails to load is the parameter `prism.loadThrows`.
- The client-side navigation script and the compare-slider script are opaque text. The model only records whether the slider script is emitted.
- `Html.Serialize` leaves out the newlines and indentation of the source's template literals. The page bytes differ from the source's by that white space; properties are stated on the node tree and on the escaped text.
- JavaScript numbers are `int` or `real`. `TitleData.level` and `ListData.startNumber` are integers, so a fractional level or start number such as 2.5 is not represented. Numbers are printed through an opaque `numberToString` parameter. The image-grid scale is the opaque `validateScale`'s value, compared with 0 and 1 and printed, with no arithmetic of its own. The YouTube width is the one product the model computes itself (next line).
- MediaBlocks.RenderYoutube: the width `min(1, max(0, scale)) * 100` (src/templates/blocks.ts:887) is computed on exact reals, not on IEEE-754 doubles. For a scale of 0.57 the model prints the number 57, where the source prints 56.99999999999999.
- `Docs.Theme` is a flat map from dotted keys to class strings. The source reads `theme.navigation.row` and similar nested fields: a theme without the `navigation` group throws a TypeError there, where the model reads the empty string.
- `VersionRender.SortStrings` and `VersionRender.Below` order strings by code point. JavaScript's `sort()` compares UTF-16 code units, which differs only when characters above U+FFFF are compared with characters in U+E000–U+FFFF.
- `Text.ToLower` lower-cases ASCII letters only, where the source uses `toLowerCase`. This changes nothing for the boolean words and the `<script` test, but a code language name with non-ASCII capitals is not folded.
- A chart that fails to render aborts the version, as `ensureAsset` rethrows and `prepareContent` and `renderVersion` do not catch it (`ChartAssets.ChartAssetManager.EnsureAsset`, `VersionRender`). A design in which the page still builds without the chart is not what the code does, so the model follows the code.
- `Navigation` fixes `joinRelativePath` to the segments [directory, id, `index.html`]; Node's `path.join` is not modelled.
- `Cli.BuildDirs` takes `resolveAgainstProjectRoot(p)` to be the segment resolution of `p` against the project root. `Paths.Resolve` and `Paths.Relative` stand for Node's `path.resolve`, `path.relative` and `path.normalize` on POSIX paths. Windows separators and drive letters are not modelled.
- A category whose `docs` or `children` is undefined is read as having none.
- `loadSstDocsConfig`, `resolveDataPath`, `normalizeBaseUrlPath`, the version loaders of `buildPlan.ts`, `runCli`, `isCliExecution` and `ensureAppRootPath.ts` are not part of this model. Their results are parameters.
- `process.env` is a map from names to values.
- `ChartAssets.NormaliseChartType` treats `TYPE_MAP` as a table of its own keys only. The source reads it as a plain object, so a raw type naming an `Object.prototype` member (`toString`, `constructor`, …) yields that inherited function, which then reaches the Chart.js configuration as the chart type. The model yields `bar` there, and its `IsChartType` ensures does not hold of the source for those names. The render size and the chart key are the same either way, because neither value is `radar` or `polarArea`.
- `CodeBlocks.NormalizePrismLanguage` treats `PRISM_LANGUAGE_ALIASES` as a table of its own keys only. The source reads it as a plain object, so a language that lower-cases to `constructor` or `__proto__` yields `Object` or `Object.prototype`. These then print as the `language-…` class and the shown name. The model keeps the lower-cased name there.
- `CopyAssets.CollectMediaPaths` walks only the fields the content datatypes model (`CopyAssets.DataJson`). `collectMediaPathsFromValue` goes through `Object.values` of whatever the content objects hold, so a media path stored under a key the model has no field for is collected and copied by the source but not by the model. Examples are the data of a `graph` block, the data of an unknown block type, or an extra key.
- The order of `Object.values` is the order of the fields in `CopyAssets.DataJson`. JavaScript's own key order for objects (integer-like keys first) is not modelled. The collected set is sorted before use, so the order only matters for its internal insertion order.
- `CopyAssets.MediaPathListMeaning`: when two collected paths differ only in `\` versus `/`, the sorted list holds both rewritten copies, as the source's does. The lemma states this as a multiset equality.
- The JSON formatting of the manifests (`JSON.stringify(…, null, 2)`) is not modelled; the manifests are lists.
- The KaTeX font copy (`copyKaTeXAssets`) is not modelled. Neither are the content of the Prism theme and of the three static stylesheets `copyVersionAssets` writes. Only their target names are, in `CopyAssets.ExtraStylesheetsWritten`.
- `copyReferencedMedia`'s checks that a source exists and is a file are left out. `CopyAssets.MediaCopies` lists the copies it attempts.
- `BlockRender.RenderSession.RenderContentBlock` models the intended fallback for tags that name members of `Object.prototype` (see Findings). Off those tags, `BlockRender.SessionAgreesOffPrototype` proves it equal to the lookup as written.

## Findings

| source | as written | input that shows it | evidently intended | confidence | as-written member | corrected member |
|---|---|---|---|---|---|---|
| src/templates/blocks.ts:981-1003 | `renderContentBlock` looks the block type up with `blockRendererMap[block.type ?? ""]` on a plain object literal, so names inherited from `Object.prototype` are found too | a block with type `"toString"`: `Object.prototype.toString` is called with `this` undefined and the page shows `[object Undefined]` instead of the unsupported-block notice; `"constructor"` yields a non-string | every type not in the renderer table, inherited member names included, renders the "Unsupported block type" fallback | not executed | BlockRender.ToStringShowsObjectUndefined | BlockRender.RenderSession.RenderContentBlock |
