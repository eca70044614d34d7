/**
 * The documentation data the generator consumes (the docs-core `Content`, `Category`,
 * `DocItem`, `Version` and `Product` records), the style theme, and the foreign helpers
 * the templates call (docs-core tables and functions, KaTeX, Prism), passed in as values.
 */
module Docs {
  import opened Wrappers

  // ---------------------------------------------------------------------------
  // Content blocks

  datatype TitleData = TitleData(
    text: Option<string>, level: Option<int>, alignment: Option<string>,
    underline: bool, enableAnchorLink: bool, spacing: Option<string>)

  datatype TextData = TextData(text: Option<string>, alignment: Option<string>, spacing: Option<string>)

  datatype ListData = ListData(
    items: Option<seq<string>>, alignment: Option<string>, listType: Option<string>,
    inside: bool, startNumber: Option<int>, ariaLabel: Option<string>)

  datatype DividerData = DividerData(dividerType: Option<string>, text: Option<string>, spacing: Option<string>)

  datatype MessageBoxData = MessageBoxData(
    text: Option<string>, boxType: Option<string>, size: Option<string>, spacing: Option<string>)

  datatype TableCell = TableCell(content: Option<string>, isHeader: bool, scope: Option<string>)

  datatype TableData = TableData(rows: Option<seq<seq<TableCell>>>, tableType: Option<string>)

  datatype CodeSection = CodeSection(language: Option<string>, content: Option<string>, filename: Option<string>)

  datatype CodeData = CodeData(
    sections: Option<seq<CodeSection>>, content: Option<string>, language: Option<string>,
    name: Option<string>, showLineNumbers: Option<bool>, wrapLines: bool)

  datatype MathData = MathData(expression: Option<string>, alignment: Option<string>)

  datatype AudioData = AudioData(src: Option<string>, mimeType: Option<string>, caption: Option<string>)

  datatype Image = Image(src: Option<string>, alt: Option<string>)

  datatype ImageData = ImageData(image: Option<Image>, scale: Option<real>, alignment: Option<string>)

  /** The data of an image grid or an image carousel. */
  datatype ImageListData = ImageListData(images: Option<seq<Image>>, scale: Option<real>, alignment: Option<string>)

  datatype ImageCompareData = ImageCompareData(
    beforeImage: Option<Image>, afterImage: Option<Image>, scale: Option<real>,
    alignment: Option<string>, compareType: Option<string>, showPercentage: bool)

  datatype YoutubeData = YoutubeData(
    youtubeVideoId: Option<string>, alignment: Option<string>, scale: Option<real>, caption: Option<string>)

  datatype Dataset = Dataset(datasetLabel: Option<string>, values: seq<real>)

  datatype ChartData = ChartData(
    chartType: Option<string>, title: Option<string>, labels: seq<string>,
    datasets: Option<seq<Dataset>>, alignment: Option<string>, scale: Option<real>)

  /**
   * A content block: a type tag and, for each kind, an optional data record. A block only
   * renders through the data record its tag names.
   */
  datatype Content = Content(
    blockType: Option<string>,
    spacing: Option<string>,
    titleData: Option<TitleData>,
    textData: Option<TextData>,
    listData: Option<ListData>,
    dividerData: Option<DividerData>,
    messageBoxData: Option<MessageBoxData>,
    tableData: Option<TableData>,
    codeData: Option<CodeData>,
    mathData: Option<MathData>,
    audioData: Option<AudioData>,
    imageData: Option<ImageData>,
    imageGridData: Option<ImageListData>,
    imageCarouselData: Option<ImageListData>,
    imageCompareData: Option<ImageCompareData>,
    youtubeData: Option<YoutubeData>,
    chartData: Option<ChartData>)

  /** A block with the given tag and no data at all. */
  function Bare(tag: Option<string>): (c: Content)
    ensures c.blockType == tag && c.titleData.None? && c.chartData.None?
  {
    Content(tag, None, None, None, None, None, None, None, None, None, None, None, None, None, None, None, None)
  }

  // ---------------------------------------------------------------------------
  // Documents

  datatype DocItem = DocItem(id: string, title: string, description: Option<string>, content: seq<Content>)

  /**
   * A category. An absent `docs` or `children` list is given as the empty list: every
   * reader of the two fields goes through `?.` and `?? []`, which treat both alike.
   */
  datatype Category = Category(
    id: string, title: string, description: Option<string>, content: Option<seq<Content>>,
    docs: seq<DocItem>, children: seq<Category>)

  datatype Version = Version(version: string, versionLabel: Option<string>)

  datatype Product = Product(product: string)

  /** Everything loaded for one version of one product. */
  datatype VersionRenderEntry = VersionRenderEntry(
    version: Version, versionRoot: string, product: Option<Product>,
    items: seq<DocItem>, tree: seq<Category>, standaloneDocs: seq<DocItem>)

  // ---------------------------------------------------------------------------
  // Theme and foreign helpers

  /** The style theme: class strings by slot, such as `text.titleLevel1` or `table.headers`. */
  type Theme = map<string, string>

  /** A theme slot, absent when the theme does not define it. */
  function Slot(theme: Theme, key: string): (r: Option<string>)
    ensures r.Some? <==> key in theme
  {
    if key in theme then Some(theme[key]) else None
  }

  /** The chart part of the theme: the slots whose key starts with `chart.`. */
  function ChartTheme(theme: Theme): (r: Theme)
    ensures forall k :: k in r ==> k in theme && theme[k] == r[k]
  {
    map k | k in theme && |k| >= 6 && k[..6] == "chart." :: theme[k]
  }

  /** One entry of docs-core's `ALIGNMENT_CLASSES`. */
  datatype Alignment = Alignment(text: string, container: string)

  /** `ALIGNMENT_CLASSES`: its `left` entry and the table of all entries. */
  datatype AlignmentTable = AlignmentTable(left: Alignment, entries: map<string, Alignment>)

  /**
   * Prism: the grammars present before any loading, the languages `loadLanguages` knows
   * (it returns quietly for the others), the languages whose loading throws, and `highlight`.
   */
  datatype Prism = Prism(
    builtin: set<string>,
    components: set<string>,
    loadThrows: set<string>,
    /** `Prism.highlight(code, grammarOf(grammarName), language)`; `None` when it throws. */
    highlight: (string, string, string) -> Option<string>)

  /** The helpers the templates import from docs-core, KaTeX and Prism. */
  datatype Externals = Externals(
    slugify: string -> string,
    spacingClasses: map<string, string>,
    alignmentClasses: AlignmentTable,
    validateScale: Option<real> -> real,
    /** `getResponsiveWidth(scale, false)`. */
    responsiveWidth: real -> string,
    extractYouTubeId: string -> Option<string>,
    isValidYouTubeId: string -> bool,
    /** `CODE_LANGUAGE_CONFIG[key].name`. */
    codeLanguageNames: map<string, string>,
    /** KaTeX `renderToString(expression, { throwOnError: false })`. */
    katex: string -> string,
    prism: Prism,
    /** `String(n)` for a JavaScript number. */
    numberToString: real -> string,
    /** The text of the compare-slider client script. */
    compareScript: string)

  /** What a chart lookup gives a page: the image href and its pixel size. */
  datatype ChartHref = ChartHref(src: string, width: int, height: int)

  /** The per-page context the block renderers receive. */
  datatype RenderContext = RenderContext(
    styles: Theme,
    currentPath: string,
    resolveAssetHref: Option<string -> string>,
    getChartAssetHref: Option<(ChartData, int) -> Option<ChartHref>>)
}
