/**
 * The block templates for maths, audio, images, image grids, carousels, image
 * comparisons, YouTube embeds and charts.
 */
module MediaBlocks {
  import opened Wrappers
  import opened Text
  import opened Html
  import opened Docs
  import opened Helpers
  import opened Blocks
  import ChartAssets

  /** A `div` with a class and an inline style. */
  function StyledDiv(classes: string, style: string, children: seq<Node>): (r: Node)
    ensures r.Element? && r.tag == "div" && r.children == children
  {
    E("div", [Class(classes), Attr("style", style)], children)
  }

  // ---------------------------------------------------------------------------
  // Math

  /** The flex justification of a formula: by the lower-cased alignment, `center` unless left or right. */
  function MathJustify(alignment: Option<string>): (r: string)
    ensures alignment.Some? && ToLower(alignment.value) == "left" ==> r == "flex-start"
    ensures alignment.Some? && ToLower(alignment.value) == "right" ==> r == "flex-end"
    ensures !(alignment.Some? && ToLower(alignment.value) in {"left", "right"}) ==> r == "center"
  {
    var key := if alignment.Some? then ToLower(alignment.value) else "center";
    if key == "left" then "flex-start" else if key == "right" then "flex-end" else "center"
  }

  /** The formula's container: KaTeX's markup of `expression`, inserted unescaped, justified by the alignment. */
  function MathContainer(ext: Externals, ctx: RenderContext, expression: string, alignment: Option<string>): (r: Node)
    ensures r.Element? && r.children == [Raw(ext.katex(expression))]
    ensures AttrValue(r.attrs, "style") == Some("display:flex;justify-content:" + MathJustify(alignment) + ";width:100%;")
  {
    var classes := ClassNames([StyleOr(ctx, "text.math", ""), GetAlignment(ext, alignment).text, "math-block"]);
    StyledDiv(classes, "display:flex;justify-content:" + MathJustify(alignment) + ";width:100%;", [Raw(ext.katex(expression))])
  }

  /** The math block: nothing without an expression, else its container in the block's section wrapper. */
  function RenderMath(ext: Externals, ctx: RenderContext, block: Content): (r: Option<Node>)
    ensures r.Some? <==> block.mathData.Some? && Truthy(block.mathData.value.expression)
    ensures r.Some? ==>
      r.value == SectionWrapper(GetSpacingClass(ext, GetBlockSpacing(block), "medium"),
                                MathContainer(ext, ctx, block.mathData.value.expression.value, block.mathData.value.alignment))
  {
    var data := block.mathData;
    if data.None? || !Truthy(data.value.expression) then None
    else
      Some(SectionWrapper(GetSpacingClass(ext, GetBlockSpacing(block), "medium"),
                          MathContainer(ext, ctx, data.value.expression.value, data.value.alignment)))
  }

  // ---------------------------------------------------------------------------
  // Audio

  /** The `source` of an audio block: the resolved path, and a `type` only for a given MIME type. */
  function AudioSource(ctx: RenderContext, data: AudioData): (r: Node)
    ensures r.Element? && r.tag == "source"
    ensures AttrValue(r.attrs, "src") == Some(ResolveAssetPath(ctx, data.src))
    ensures AttrValue(r.attrs, "type") == (if Truthy(data.mimeType) then data.mimeType else None)
  {
    E("source", [Attr("src", ResolveAssetPath(ctx, data.src))]
                + (if Truthy(data.mimeType) then [Attr("type", data.mimeType.value)] else []), [])
  }

  const AudioFallbackText := "Your browser does not support the audio element."

  /** The audio block: nothing without a source; a figure with the player and the caption. */
  function RenderAudio(ext: Externals, ctx: RenderContext, block: Content): (r: Option<Node>)
    ensures r.Some? <==> block.audioData.Some? && Truthy(block.audioData.value.src)
    ensures r.Some? ==>
      && r.value.Element? && r.value.tag == "figure" && |r.value.children| == 2
      && r.value.children[0].Element? && r.value.children[0].tag == "audio" && |r.value.children[0].children| == 2
      && r.value.children[0].children[0] == AudioSource(ctx, block.audioData.value)
      && r.value.children[1] == RenderFigureCaption(ctx, block.audioData.value.caption)
  {
    var data := block.audioData;
    if data.None? || !Truthy(data.value.src) then None
    else
      var player := E("audio", [Flag("controls"), Attr("preload", "metadata"), Class("w-full")],
                      [AudioSource(ctx, data.value), Str(AudioFallbackText)]);
      Some(E("figure", [Class(GetSpacingClass(ext, GetBlockSpacing(block), "medium"))],
             [player, RenderFigureCaption(ctx, data.value.caption)]))
  }

  // ---------------------------------------------------------------------------
  // Image

  /** The `img` of an image: the resolved path and the alternative text (empty when missing). */
  function ImageTag(ctx: RenderContext, image: Image, classes: string): (r: Node)
    ensures r.Element? && r.tag == "img"
  {
    E("img", [Attr("src", ResolveAssetPath(ctx, image.src)), Attr("alt", image.alt.GetOr(""))]
             + (if classes == "" then [] else [Class(classes)]), [])
  }

  /** The image carries the resolved source and the alternative text (empty when missing). */
  lemma ImageTagAttrs(ctx: RenderContext, image: Image, classes: string)
    ensures AttrValue(ImageTag(ctx, image, classes).attrs, "src") == Some(ResolveAssetPath(ctx, image.src))
    ensures AttrValue(ImageTag(ctx, image, classes).attrs, "alt") == Some(image.alt.GetOr(""))
  {
    var attrs := ImageTag(ctx, image, classes).attrs;
    assert attrs[1..][0] == Attr("alt", image.alt.GetOr(""));
  }

  /** The image block: nothing without a source; the image at its responsive width, captioned by its alternative text. */
  function RenderImage(ext: Externals, ctx: RenderContext, block: Content): (r: Option<Node>)
    ensures r.Some? <==>
      block.imageData.Some? && block.imageData.value.image.Some? && Truthy(block.imageData.value.image.value.src)
    ensures r.Some? ==>
      var image := block.imageData.value.image.value;
      && r.value.Element? && r.value.tag == "figure" && |r.value.children| == 1
      && r.value.children[0].Element?
      && r.value.children[0].children == [ImageTag(ctx, image, "w-full h-auto"),
                                          if Truthy(image.alt) then RenderFigureCaption(ctx, image.alt) else Empty]
  {
    var data := block.imageData;
    if data.None? || data.value.image.None? || !Truthy(data.value.image.value.src) then None
    else
      var image := data.value.image.value;
      var width := ext.responsiveWidth(ext.validateScale(data.value.scale));
      var alignment := GetAlignment(ext, Some(data.value.alignment.GetOr("center")));
      var wrapperClass := ClassNames([GetSpacingClass(ext, GetBlockSpacing(block), "medium"), alignment.text]);
      var caption := if Truthy(image.alt) then RenderFigureCaption(ctx, image.alt) else Empty;
      var container := StyledDiv(if alignment.container == "" then "mx-auto" else alignment.container, "width: " + width + ";",
                         [ImageTag(ctx, image, "w-full h-auto"), caption]);
      Some(E("figure", [Class(wrapperClass)], [container]))
  }

  // ---------------------------------------------------------------------------
  // Image grid

  /** The scale of each grid cell: the validated scale when positive, else 1. */
  function GridCellScale(scale: real): (r: real)
    ensures r > 0.0
    ensures scale > 0.0 ==> r == scale
  {
    if scale > 0.0 then scale else 1.0
  }

  /** The transform origin follows the alignment: left, right, or centre for anything else. */
  function TransformOrigin(alignmentKey: string): (r: string)
    ensures alignmentKey in {"left", "right"} ==> r == alignmentKey
    ensures alignmentKey !in {"left", "right"} ==> r == "center"
  {
    if alignmentKey == "left" then "left" else if alignmentKey == "right" then "right" else "center"
  }

  /** The style of a grid cell: a scale transform only when the scale is not 1. */
  function GridCellStyle(ext: Externals, cellScale: real, origin: string): (r: string)
    ensures cellScale == 1.0 <==> r == ""
  {
    if cellScale != 1.0 then "transform: scale(" + ext.numberToString(cellScale) + "); transform-origin: " + origin + ";"
    else ""
  }

  const GridClass := "grid gap-4 sm:grid-cols-2 md:grid-cols-3"

  /** One figure of the grid. */
  function GridFigure(ext: Externals, ctx: RenderContext, image: Image, cellScale: real, origin: string): Node
  {
    E("figure", [Class("flex flex-col items-center"), Attr("style", GridCellStyle(ext, cellScale, origin))],
      [ImageTag(ctx, image, "w-full h-auto"), RenderFigureCaption(ctx, image.alt)])
  }

  /** The image-grid block: nothing without images; one figure per image, in order. */
  function RenderImageGrid(ext: Externals, ctx: RenderContext, block: Content): (r: Option<Node>)
    ensures r.Some? <==>
      block.imageGridData.Some? && block.imageGridData.value.images.Some? && block.imageGridData.value.images.value != []
    ensures r.Some? ==>
      var data := block.imageGridData.value;
      var images := data.images.value;
      && r.value.Element? && |r.value.children| == 1 && r.value.children[0].Element?
      && |r.value.children[0].children| == |images|
      && forall i :: 0 <= i < |images| ==>
           r.value.children[0].children[i] ==
             GridFigure(ext, ctx, images[i], GridCellScale(ext.validateScale(data.scale)), TransformOrigin(data.alignment.GetOr("center")))
  {
    var data := block.imageGridData;
    if data.None? || data.value.images.None? || data.value.images.value == [] then None
    else
      var images := data.value.images.value;
      var key := data.value.alignment.GetOr("center");
      var alignment := GetAlignment(ext, Some(key));
      var cellScale := GridCellScale(ext.validateScale(data.value.scale));
      var origin := TransformOrigin(key);
      var wrapperClass := ClassNames([GetSpacingClass(ext, GetBlockSpacing(block), "medium"), alignment.text]);
      var items := seq(|images|, i requires 0 <= i < |images| => GridFigure(ext, ctx, images[i], cellScale, origin));
      Some(E("div", [Class(wrapperClass)], [E("div", [Class(ClassNames([GridClass, alignment.container]))], items)]))
  }

  // ---------------------------------------------------------------------------
  // Image carousel

  /** The id of the `n`-th carousel rendered by the process. */
  function CarouselId(n: nat): string
  {
    "static-carousel-" + NatToString(n)
  }

  /** The id of the radio input of slide `i`. */
  function CarouselOptionId(carouselId: string, i: nat): string
  {
    carouselId + "-option-" + NatToString(i)
  }

  /** The slide before slide `i`, wrapping from the first to the last. */
  function PrevIndex(i: nat, total: nat): (r: nat)
    requires i < total
    ensures r < total
  {
    if i == 0 then total - 1 else i - 1
  }

  /** The slide after slide `i`, wrapping from the last to the first. */
  function NextIndex(i: nat, total: nat): (r: nat)
    requires i < total
    ensures r < total
  {
    if i == total - 1 then 0 else i + 1
  }

  /** The previous and next slides are the neighbours modulo the number of slides, and they are inverse. */
  lemma NeighboursAreModular(i: nat, total: nat)
    requires i < total
    ensures PrevIndex(i, total) == (i + total - 1) % total
    ensures NextIndex(i, total) == (i + 1) % total
    ensures NextIndex(PrevIndex(i, total), total) == i && PrevIndex(NextIndex(i, total), total) == i
  {
    if i == 0 {
      assert (i + total - 1) % total == total - 1;
    } else {
      assert (i + total - 1) % total == i - 1 by {
        assert i + total - 1 == (i - 1) + total;
      }
    }
    if i == total - 1 {
      assert (i + 1) % total == 0 by {
        assert i + 1 == total;
      }
    } else {
      assert (i + 1) % total == i + 1;
    }
  }

  /** The radio input of slide `i`; only the first is checked. */
  function CarouselInput(carouselId: string, i: nat): (r: Node)
    ensures r.Element? && r.tag == "input"
  {
    E("input", [Attr("type", "radio"), Attr("name", carouselId + "-input"), Attr("id", CarouselOptionId(carouselId, i)),
                Class("static-carousel-input")] + (if i == 0 then [Flag("checked")] else []), [])
  }

  /** A navigation label pointing at the radio input `target`. */
  function NavLabel(classes: string, target: string, ariaLabel: string): (r: Node)
    ensures r.Element? && AttrValue(r.attrs, "for") == Some(target)
  {
    var attrs := [Class(classes), Attr("role", "button"), Attr("tabindex", "0"), Attr("for", target), Attr("aria-label", ariaLabel)];
    assert AttrValue(attrs, "for") == AttrValue(attrs[1..], "for") == AttrValue(attrs[2..], "for") == AttrValue(attrs[3..], "for");
    E("label", attrs, [])
  }

  /** The two navigation labels of slide `i`: to the previous and to the next slide. */
  function CarouselNav(carouselId: string, i: nat, total: nat): (r: Node)
    requires i < total
    ensures r.Element? && |r.children| == 2 && r.children[0].Element? && r.children[1].Element?
    ensures AttrValue(r.children[0].attrs, "for") == Some(CarouselOptionId(carouselId, PrevIndex(i, total)))
    ensures AttrValue(r.children[1].attrs, "for") == Some(CarouselOptionId(carouselId, NextIndex(i, total)))
  {
    E("div", [Class("static-carousel-navlinks")],
      [NavLabel("static-carousel-prev", CarouselOptionId(carouselId, PrevIndex(i, total)), "Previous slide"),
       NavLabel("static-carousel-next", CarouselOptionId(carouselId, NextIndex(i, total)), "Next slide")])
  }

  /** Slide `i`: its figure, and navigation labels only when there is more than one slide. */
  function CarouselSlide(ctx: RenderContext, carouselId: string, image: Image, i: nat, total: nat): (r: Node)
    requires i < total
    ensures r.Element? && r.tag == "li"
    ensures total > 1 ==> |r.children| == 2 && r.children[1] == CarouselNav(carouselId, i, total)
    ensures total == 1 ==> |r.children| == 1
  {
    var figure := E("figure", [], [ImageTag(ctx, image, ""), RenderFigureCaption(ctx, image.alt)]);
    E("li", [Class("static-carousel-slide")], [figure] + (if total > 1 then [CarouselNav(carouselId, i, total)] else []))
  }

  /** The fixed pieces of the carousel's style rules. */
  datatype CarouselCss = InputOfType | SlideShown | DisplayFlex | NavButton | NavHighlight | SlidesHidden

  function CarouselCssText(piece: CarouselCss): string
  {
    match piece
    case InputOfType => " .static-carousel-input:nth-of-type("
    case SlideShown => "):checked ~ .static-carousel-viewport .static-carousel-slide:nth-of-type("
    case DisplayFlex => ") { display: flex; }\n#"
    case NavButton => "):checked ~ .static-carousel-navigation .static-carousel-navigation-list li:nth-of-type("
    case NavHighlight =>
      ") .static-carousel-navigation-button { background-color: rgba(59, 130, 246, 0.5); border-color: rgba(59, 130, 246, 0.65); transform: scale(1.15); }"
    case SlidesHidden => " .static-carousel-slide { display: none; }\n"
  }

  /** The highlight rule of slide `nth` (counting from 1). */
  function CarouselRule(safeId: string, nth: nat): string
  {
    var n := NatToString(nth);
    "#" + safeId + CarouselCssText(InputOfType) + n + CarouselCssText(SlideShown) + n + CarouselCssText(DisplayFlex)
    + safeId + CarouselCssText(InputOfType) + n + CarouselCssText(NavButton) + n + CarouselCssText(NavHighlight)
  }

  /** The highlight rules of the slides from `from` to `total - 1`, joined with line breaks. */
  function CarouselRules(safeId: string, from: nat, total: nat): string
    decreases total - from
  {
    if from >= total then ""
    else if from + 1 == total then CarouselRule(safeId, from + 1)
    else CarouselRule(safeId, from + 1) + "\n" + CarouselRules(safeId, from + 1, total)
  }

  /** The inputs of a carousel with `total` slides. */
  function CarouselInputs(carouselId: string, total: nat): (r: seq<Node>)
    ensures |r| == total && forall i :: 0 <= i < total ==> r[i] == CarouselInput(carouselId, i)
  {
    seq(total, i requires 0 <= i < total => CarouselInput(carouselId, i))
  }

  /** The slides of a carousel, one per image, in order. */
  function CarouselSlides(ctx: RenderContext, carouselId: string, images: seq<Image>): (r: seq<Node>)
    ensures |r| == |images| && forall i :: 0 <= i < |images| ==> r[i] == CarouselSlide(ctx, carouselId, images[i], i, |images|)
  {
    seq(|images|, i requires 0 <= i < |images| => CarouselSlide(ctx, carouselId, images[i], i, |images|))
  }

  /** The carousel element: its style, one input per image, and the slides. */
  function CarouselMarkup(ctx: RenderContext, carouselId: string, images: seq<Image>): Node
    requires images != []
  {
    var safeId := EscapeHtml(carouselId);
    var style := E("style", [], [Raw("#" + safeId + CarouselCssText(SlidesHidden) + CarouselRules(safeId, 0, |images|) + "\n")]);
    var viewport := E("ol", [Class("static-carousel-viewport")], CarouselSlides(ctx, carouselId, images));
    E("div", [Class("static-carousel"), Attr("id", carouselId)], [style] + CarouselInputs(carouselId, |images|) + [viewport])
  }

  /** The carousel carries its id, then holds one radio input per image, then the slides in order. */
  lemma CarouselMarkupShape(ctx: RenderContext, carouselId: string, images: seq<Image>)
    requires images != []
    ensures var r := CarouselMarkup(ctx, carouselId, images);
      && r.Element? && AttrValue(r.attrs, "id") == Some(carouselId)
      && |r.children| == |images| + 2 && r.children[1..|images| + 1] == CarouselInputs(carouselId, |images|)
      && r.children[|images| + 1].Element? && r.children[|images| + 1].children == CarouselSlides(ctx, carouselId, images)
  {
    var r := CarouselMarkup(ctx, carouselId, images);
    var inputs := CarouselInputs(carouselId, |images|);
    assert r.children == [r.children[0]] + inputs + [r.children[|images| + 1]];
    assert r.children[1..|images| + 1] == inputs;
    assert r.attrs[1..][0] == Attr("id", carouselId);
  }

  /** A carousel has at least one image. */
  predicate CarouselReady(data: Option<ImageListData>)
  {
    data.Some? && data.value.images.Some? && data.value.images.value != []
  }

  /** The carousel figure under the id of carousel number `counter`; nothing without images. */
  function CarouselFigure(ext: Externals, ctx: RenderContext, block: Content, counter: nat): Option<Node>
  {
    var data := block.imageCarouselData;
    if !CarouselReady(data) then None
    else
      var alignment := GetAlignment(ext, Some(data.value.alignment.GetOr("center")));
      var width := ext.responsiveWidth(ext.validateScale(data.value.scale));
      var wrapperClass := ClassNames([GetSpacingClass(ext, GetBlockSpacing(block), "medium"), alignment.text]);
      Some(E("div", [Class(wrapperClass)],
             [StyledDiv(alignment.container, "width: " + width + ";",
                        [CarouselMarkup(ctx, CarouselId(counter), data.value.images.value)])]))
  }

  /**
   * The image-carousel block, given the carousel counter: the figure, and the counter,
   * which advances by one exactly when a carousel was drawn.
   */
  function RenderCarousel(ext: Externals, ctx: RenderContext, block: Content, counter: nat): (Option<Node>, nat)
  {
    (CarouselFigure(ext, ctx, block, counter),
     if CarouselReady(block.imageCarouselData) then counter + 1 else counter)
  }

  /**
   * A carousel is drawn exactly when it has images; it then takes the id of the current
   * counter, which advances by one, and otherwise the counter stays.
   */
  lemma CarouselOutcome(ext: Externals, ctx: RenderContext, block: Content, counter: nat)
    ensures var r := RenderCarousel(ext, ctx, block, counter);
      && (r.0.None? <==> !CarouselReady(block.imageCarouselData))
      && (r.0.None? ==> r.1 == counter)
      && (r.0.Some? ==>
            && r.1 == counter + 1
            && r.0.value.Element? && |r.0.value.children| == 1 && r.0.value.children[0].Element?
            && r.0.value.children[0].children == [CarouselMarkup(ctx, CarouselId(counter), block.imageCarouselData.value.images.value)])
  {
  }

  // ---------------------------------------------------------------------------
  // Image compare

  /** Both images of a comparison have a source. */
  predicate CompareReady(data: Option<ImageCompareData>)
  {
    && data.Some?
    && data.value.beforeImage.Some? && Truthy(data.value.beforeImage.value.src)
    && data.value.afterImage.Some? && Truthy(data.value.afterImage.value.src)
  }

  /** The caption of the before image: its alternative text, `Before` when it has none. */
  function BeforeCaption(data: ImageCompareData): string
    requires data.beforeImage.Some?
  {
    data.beforeImage.value.alt.GetOr("Before")
  }

  /** The caption of the after image: its alternative text, `After` when it has none. */
  function AfterCaption(data: ImageCompareData): string
    requires data.afterImage.Some?
  {
    data.afterImage.value.alt.GetOr("After")
  }

  /** The outer wrapper of a comparison: spacing and alignment, then the sized container. */
  function CompareWrapper(ext: Externals, block: Content, data: ImageCompareData, containerClass: string, inner: seq<Node>): Node
  {
    var alignment := GetAlignment(ext, Some(data.alignment.GetOr("center")));
    var width := ext.responsiveWidth(ext.validateScale(data.scale));
    var wrapperClass := ClassNames([GetSpacingClass(ext, GetBlockSpacing(block), "medium"), alignment.text]);
    E("div", [Class(wrapperClass)], [StyledDiv(containerClass, "width: " + width + ";", inner)])
  }

  /** One captioned figure of the side-by-side comparison. */
  function CompareFigure(ctx: RenderContext, src: Option<string>, caption: string): Node
  {
    E("div", [Class("w-1/2")],
      [E("figure", [Class("flex flex-col items-center")],
         [ImageTag(ctx, Image(src, Some(caption)), "w-full h-auto"), RenderFigureCaption(ctx, Some(caption))])])
  }

  /** The side-by-side comparison: the two images with their captions, no script and no counter. */
  function IndividualCompare(ext: Externals, ctx: RenderContext, block: Content, data: ImageCompareData): (r: Node)
    requires data.beforeImage.Some? && data.afterImage.Some?
    ensures r.Element? && |r.children| == 1 && r.children[0].Element?
    ensures r.children[0].children ==
      [CompareFigure(ctx, data.beforeImage.value.src, BeforeCaption(data)), CompareFigure(ctx, data.afterImage.value.src, AfterCaption(data))]
  {
    var alignment := GetAlignment(ext, Some(data.alignment.GetOr("center")));
    CompareWrapper(ext, block, data, ClassNames(["flex gap-4 justify-center", alignment.container]),
                   [CompareFigure(ctx, data.beforeImage.value.src, BeforeCaption(data)),
                    CompareFigure(ctx, data.afterImage.value.src, AfterCaption(data))])
  }

  /** The id of the `n`-th compare slider rendered by the process. */
  function CompareId(n: nat): string
  {
    "static-compare-" + NatToString(n)
  }

  /** The percentage summary is shown only on request and only when one of the images has alternative text. */
  predicate ShowsSummary(data: ImageCompareData)
    requires data.beforeImage.Some? && data.afterImage.Some?
  {
    data.showPercentage && (Truthy(data.beforeImage.value.alt) || Truthy(data.afterImage.value.alt))
  }

  const CompareNoScriptText := "Enable JavaScript to adjust the comparison slider."
  const CompareSummaryClass := "static-compare-summary"
  const CompareAfterClass := "static-compare-image static-compare-image--after"
  const CompareBeforeClass := "static-compare-image static-compare-image--before"

  /** The slider controls: the range input and, when shown, the summary paragraph. */
  function CompareControls(ctx: RenderContext, data: ImageCompareData): (r: Node)
    requires data.beforeImage.Some? && data.afterImage.Some?
    ensures r.Element? && |r.children| == (if ShowsSummary(data) then 2 else 1)
  {
    var range := E("input", [Attr("type", "range"), Attr("min", "0"), Attr("max", "100"), Attr("value", "50"),
                             Class("static-compare-range"), Flag("data-static-compare-range"),
                             Attr("aria-label", "Reveal " + BeforeCaption(data) + " compared to " + AfterCaption(data))], []);
    var summary := E("p", [Class(ClassNames([CompareSummaryClass, StyleOr(ctx, "text.alternative", "")])),
                           Flag("data-static-compare-summary")], []);
    E("div", [Class("static-compare-controls")], [range] + (if ShowsSummary(data) then [summary] else []))
  }

  /** The slider comparison under the id `compareId`: the after image with the before image overlaid. */
  function SliderCompare(ext: Externals, ctx: RenderContext, block: Content, data: ImageCompareData, compareId: string): (r: Node)
    requires data.beforeImage.Some? && data.afterImage.Some?
  {
    var alignment := GetAlignment(ext, Some(data.alignment.GetOr("center")));
    var figure := E("figure", [Class("static-compare-figure")],
      [ImageTag(ctx, Image(data.afterImage.value.src, Some(AfterCaption(data))), CompareAfterClass),
       E("div", [Class("static-compare-overlay"), Flag("data-static-compare-overlay")],
         [ImageTag(ctx, Image(data.beforeImage.value.src, Some(BeforeCaption(data))), CompareBeforeClass)]),
       E("div", [Class("static-compare-handle"), Flag("data-static-compare-handle"), Attr("aria-hidden", "true")], [])]);
    var noscript := E("noscript", [], [E("div", [Class("static-compare-noscript")], [Str(CompareNoScriptText)])]);
    var slider := E("div", [Class("static-compare"), Attr("id", compareId), Flag("data-static-compare"),
                            Attr("data-before-label", BeforeCaption(data)), Attr("data-after-label", AfterCaption(data)),
                            Attr("data-initial", "50"), Attr("style", "--static-compare-position: 50%;")],
                    [figure, CompareControls(ctx, data), noscript]);
    CompareWrapper(ext, block, data, alignment.container, [slider])
  }

  /** The slider element sits inside the two wrappers and carries the compare id. */
  lemma SliderCompareId(ext: Externals, ctx: RenderContext, block: Content, data: ImageCompareData, compareId: string)
    requires data.beforeImage.Some? && data.afterImage.Some?
    ensures var r := SliderCompare(ext, ctx, block, data, compareId);
      && r.Element? && |r.children| == 1 && r.children[0].Element? && |r.children[0].children| == 1
      && r.children[0].children[0].Element?
      && AttrValue(r.children[0].children[0].attrs, "id") == Some(compareId)
  {
    var slider := SliderCompare(ext, ctx, block, data, compareId).children[0].children[0];
    assert slider.attrs[1..][0] == Attr("id", compareId);
  }

  /** The client script of the sliders, emitted once per process. */
  function CompareScript(ext: Externals): Node
  {
    Raw(ext.compareScript)
  }

  /** A comparison that is drawn as a slider: both sources, and a type other than `individual`. */
  predicate IsSliderCompare(data: Option<ImageCompareData>)
  {
    CompareReady(data) && !IsIndividual(data.value.compareType)
  }

  /** The `individual` compare type. */
  predicate IsIndividual(compareType: Option<string>)
  {
    match compareType
    case Some(t) => t == "individual"
    case None => false
  }

  /**
   * The markup of an image-compare block: nothing without both sources; the side-by-side
   * comparison for the `individual` type; otherwise the slider under the id of slider
   * number `counter`, followed by the script when it was not yet emitted.
   */
  function CompareMarkup(ext: Externals, ctx: RenderContext, block: Content, counter: nat, scriptInjected: bool): Option<Node>
  {
    var data := block.imageCompareData;
    if !CompareReady(data) then None
    else if IsIndividual(data.value.compareType) then Some(IndividualCompare(ext, ctx, block, data.value))
    else Some(Fragment([SliderCompare(ext, ctx, block, data.value, CompareId(counter)),
                        if scriptInjected then Empty else CompareScript(ext)]))
  }

  /**
   * The image-compare block, given the slider counter and whether the slider script was
   * already emitted: the markup, then the counter, which advances exactly when a slider
   * was drawn, and the flag, which a slider sets.
   */
  function RenderImageCompare(ext: Externals, ctx: RenderContext, block: Content, counter: nat, scriptInjected: bool)
    : (Option<Node>, nat, bool)
  {
    (CompareMarkup(ext, ctx, block, counter, scriptInjected),
     if IsSliderCompare(block.imageCompareData) then counter + 1 else counter,
     IsSliderCompare(block.imageCompareData) || scriptInjected)
  }

  /**
   * A comparison is drawn exactly when both images have a source; the side-by-side type
   * leaves counter and flag alone and shows the two captioned figures.
   */
  lemma CompareOutcome(ext: Externals, ctx: RenderContext, block: Content, counter: nat, scriptInjected: bool)
    ensures var r := RenderImageCompare(ext, ctx, block, counter, scriptInjected);
      && (r.0.Some? <==> CompareReady(block.imageCompareData))
      && (!IsSliderCompare(block.imageCompareData) ==> r.1 == counter && r.2 == scriptInjected)
      && (r.0.Some? && !IsSliderCompare(block.imageCompareData) ==>
            r.0.value == IndividualCompare(ext, ctx, block, block.imageCompareData.value))
  {
  }

  /**
   * A slider takes the id of the current counter, which advances, and sets the flag; the
   * script follows it exactly when the flag was not yet set.
   */
  lemma SliderOutcome(ext: Externals, ctx: RenderContext, block: Content, counter: nat, scriptInjected: bool)
    requires IsSliderCompare(block.imageCompareData)
    ensures var r := RenderImageCompare(ext, ctx, block, counter, scriptInjected);
      && r.1 == counter + 1 && r.2
      && r.0.Some? && r.0.value.Fragment? && |r.0.value.nodes| == 2
      && r.0.value.nodes[0] == SliderCompare(ext, ctx, block, block.imageCompareData.value, CompareId(counter))
      && (r.0.value.nodes[1] == Empty <==> scriptInjected)
  {
  }

  // ---------------------------------------------------------------------------
  // YouTube

  /** `min(1, max(0, s))`. */
  function UnitClamp(s: real): (r: real)
    ensures 0.0 <= r <= 1.0
    ensures 0.0 <= s <= 1.0 ==> r == s
  {
    if s < 0.0 then 0.0 else if s > 1.0 then 1.0 else s
  }

  const YoutubeEmbedBase := "https://www.youtube.com/embed/"
  const YoutubeAllow := "accelerometer; autoplay; clipboard-write; encrypted-media; gyroscope; picture-in-picture"

  /** The player's width: the validated scale clamped to [0, 1], as a percentage. */
  function YoutubeWidth(ext: Externals, scale: Option<real>): string
  {
    ext.numberToString(UnitClamp(ext.validateScale(scale)) * 100.0) + "%"
  }

  /** The embedded player of a video id. */
  function YoutubeFrame(videoId: string): (r: Node)
    ensures r.Element? && r.tag == "iframe" && AttrValue(r.attrs, "src") == Some(YoutubeEmbedBase + videoId)
  {
    E("iframe", [Attr("src", YoutubeEmbedBase + videoId), Attr("title", "YouTube video player"), Attr("allow", YoutubeAllow),
                 Flag("allowfullscreen"), Class("w-full h-full rounded-lg border")], [])
  }

  /** The id a YouTube block embeds, when its reference yields a valid one. */
  function YoutubeVideo(ext: Externals, data: Option<YoutubeData>): (r: Option<string>)
    ensures r.Some? <==>
      && data.Some? && Truthy(data.value.youtubeVideoId)
      && Truthy(ext.extractYouTubeId(data.value.youtubeVideoId.value))
      && ext.isValidYouTubeId(ext.extractYouTubeId(data.value.youtubeVideoId.value).value)
    ensures r.Some? ==> r == ext.extractYouTubeId(data.value.youtubeVideoId.value)
  {
    if data.None? || !Truthy(data.value.youtubeVideoId) then None
    else
      var extracted := ext.extractYouTubeId(data.value.youtubeVideoId.value);
      if !Truthy(extracted) || !ext.isValidYouTubeId(extracted.value) then None else extracted
  }

  /** The YouTube block: nothing without a valid video id; the player at the clamped width, and a caption when given. */
  function RenderYoutube(ext: Externals, ctx: RenderContext, block: Content): (r: Option<Node>)
    ensures r.Some? <==> YoutubeVideo(ext, block.youtubeData).Some?
    ensures r.Some? ==>
      && r.value.Element? && |r.value.children| == 1
      && r.value.children[0].Element? && |r.value.children[0].children| == 2
      && r.value.children[0].children[0] == E("div", [Class("aspect-video")], [YoutubeFrame(YoutubeVideo(ext, block.youtubeData).value)])
      && AttrValue(r.value.children[0].attrs, "style") ==
           Some("width: " + YoutubeWidth(ext, block.youtubeData.value.scale) + ";")
  {
    var video := YoutubeVideo(ext, block.youtubeData);
    if video.None? then None
    else
      var data := block.youtubeData.value;
      var alignment := GetAlignment(ext, Some(data.alignment.GetOr("left")));
      var width := YoutubeWidth(ext, data.scale);
      var caption :=
        if Truthy(data.caption) then E("p", [Class(ClassNames(["mt-2", StyleOr(ctx, "text.alternative", "")]))], [Str(data.caption.value)])
        else Empty;
      var container := StyledDiv(alignment.container, "width: " + width + ";",
                                 [E("div", [Class("aspect-video")], [YoutubeFrame(video.value)]), caption]);
      Some(E("div", [Class(ClassNames([GetSpacingClass(ext, GetBlockSpacing(block), "medium"), alignment.text]))], [container]))
  }

  // ---------------------------------------------------------------------------
  // Chart

  /** The chart's title before trimming: its title, else the first dataset's label, else `<type> chart`, else `chart`. */
  function ChartBaseTitle(data: ChartData): (r: string)
    ensures Truthy(data.title) ==> r == data.title.value
    ensures (!Truthy(data.title) && data.datasets.Some? && data.datasets.value != []
             && Truthy(data.datasets.value[0].datasetLabel)) ==> r == data.datasets.value[0].datasetLabel.value
    ensures !Truthy(data.title) && (data.datasets.None? || data.datasets.value == [] || !Truthy(data.datasets.value[0].datasetLabel)) ==>
            r == (if Truthy(data.chartType) then data.chartType.value + " chart" else "chart")
  {
    var datasets := data.datasets.GetOr([]);
    var primary := if datasets != [] then datasets[0].datasetLabel else None;
    if Truthy(data.title) then data.title.value
    else if Truthy(primary) then primary.value
    else if Truthy(data.chartType) then data.chartType.value + " chart"
    else "chart"
  }

  /** The width the chart is rendered at, from its validated scale. */
  function ChartTargetWidth(ext: Externals, data: ChartData): (r: int)
    ensures ChartAssets.ContentMinWidth <= r <= ChartAssets.ContentMaxWidth
  {
    ChartAssets.ResolveChartRenderWidth(Some(ext.validateScale(data.scale)))
  }

  /** The chart image the page's lookup gives, if the page has a lookup. */
  function ChartAsset(ctx: RenderContext, data: ChartData, targetWidth: int): Option<ChartHref>
  {
    if ctx.getChartAssetHref.Some? then ctx.getChartAssetHref.value(data, targetWidth) else None
  }

  const ChartUnavailableClass := "rounded-lg border border-dashed border-gray-400 bg-white/80 p-6 text-sm text-gray-500"
  const ChartUnavailableText := "Chart preview unavailable in static export."

  /** The placeholder of a chart without an image. */
  const ChartUnavailable: Node := E("div", [Class(ChartUnavailableClass)], [Str(ChartUnavailableText)])

  /** The chart's figure: the image at its size, or the placeholder when there is no image. */
  function ChartFigure(asset: Option<ChartHref>, fallbackTitle: string): (r: Node)
    ensures asset.None? ==> r == ChartUnavailable
    ensures asset.Some? ==>
      && r.Element? && r.tag == "figure" && |r.children| == 1 && r.children[0].Element?
      && AttrValue(r.children[0].attrs, "src") == Some(asset.value.src)
      && AttrValue(r.children[0].attrs, "alt") == Some(if fallbackTitle != "" then fallbackTitle else "Chart visualization")
  {
    if asset.None? then ChartUnavailable
    else
      var img := E("img", [Attr("src", asset.value.src), Attr("alt", if fallbackTitle != "" then fallbackTitle else "Chart visualization"),
                           Attr("width", IntToString(asset.value.width)), Attr("height", IntToString(asset.value.height)),
                           Attr("loading", "lazy"), Class("w-full h-auto")], []);
      E("figure", [Class("flex flex-col items-center gap-3")], [img])
  }

  /** The maximum display width: the image's width when it has a non-zero one, else the target width. */
  function ChartMaxWidth(asset: Option<ChartHref>, targetWidth: int): (r: int)
    ensures asset.Some? && asset.value.width != 0 ==> r == asset.value.width
    ensures asset.None? || asset.value.width == 0 ==> r == targetWidth
  {
    if asset.Some? && asset.value.width != 0 then asset.value.width else targetWidth
  }

  /** The chart block: nothing without data; else the figure of the image the page has for it, or the placeholder. */
  function RenderChart(ext: Externals, ctx: RenderContext, block: Content): (r: Option<Node>)
    ensures r.Some? <==> block.chartData.Some?
    ensures r.Some? ==>
      var data := block.chartData.value;
      var asset := ChartAsset(ctx, data, ChartTargetWidth(ext, data));
      && r.value.Element? && |r.value.children| == 1 && r.value.children[0].Element?
      && r.value.children[0].children == [ChartFigure(asset, Trim(ChartBaseTitle(data)))]
      && AttrValue(r.value.children[0].attrs, "style") ==
           Some("width: 100%; max-width: " + IntToString(ChartMaxWidth(asset, ChartTargetWidth(ext, data))) + "px;")
  {
    if block.chartData.None? then None
    else
      var data := block.chartData.value;
      var alignment := GetAlignment(ext, Some(if Truthy(data.alignment) then data.alignment.value else "center"));
      var targetWidth := ChartTargetWidth(ext, data);
      var asset := ChartAsset(ctx, data, targetWidth);
      var wrapperClass := ClassNames([GetSpacingClass(ext, GetBlockSpacing(block), "medium"), alignment.text]);
      var style := "width: 100%; max-width: " + IntToString(ChartMaxWidth(asset, targetWidth)) + "px;";
      Some(E("div", [Class(wrapperClass)],
             [StyledDiv(alignment.container, style, [ChartFigure(asset, Trim(ChartBaseTitle(data)))])]))
  }
}
