/**
 * Chart images: the render width and height of a chart, its Chart.js type, and the
 * `ChartAssetManager`, which renders each distinct chart once per version and hands pages
 * the relative href of the stored image.
 *
 * A chart is identified by its key: the chart data, the chart part of the theme, and the
 * pixel size. The manager's map is keyed by that tuple; the hex digest that names the
 * file is an opaque function of the key.
 */
module ChartAssets {
  import opened Wrappers
  import opened Text
  import opened Docs
  import opened OrderedMaps
  import opened Paths

  const ContentMaxWidth := 896
  const ContentMinWidth := 360
  const ChartSubdir := "charts"

  /** `Math.round` on a non-negative value: halves round up. */
  function Round(x: real): int
  {
    (x + 0.5).Floor
  }

  /**
   * `resolveChartRenderWidth(scale)`: the scale (1 when missing) clamped to [0.35, 1], times
   * the content width, rounded, and clamped to [360, 896].
   */
  function ResolveChartRenderWidth(scale: Option<real>): (w: int)
    ensures ContentMinWidth <= w <= ContentMaxWidth
    ensures scale.None? ==> w == ContentMaxWidth
  {
    var effective := if scale.None? then 1.0 else scale.value;
    var clamped := if effective > 1.0 then 1.0 else if effective < 0.35 then 0.35 else effective;
    var width := Round(896.0 * clamped);
    Clamp(width)
  }

  /** `Math.max(360, Math.min(896, w))`. */
  function Clamp(w: int): (r: int)
    ensures ContentMinWidth <= r <= ContentMaxWidth
    ensures ContentMinWidth <= w <= ContentMaxWidth ==> r == w
    ensures w < ContentMinWidth ==> r == ContentMinWidth
    ensures w > ContentMaxWidth ==> r == ContentMaxWidth
  {
    if w > ContentMaxWidth then ContentMaxWidth else if w < ContentMinWidth then ContentMinWidth else w
  }

  /** A full-scale chart takes the whole content width. */
  lemma FullScaleWidth()
    ensures ResolveChartRenderWidth(Some(1.0)) == ContentMaxWidth
  {
    assert Round(896.0) == 896;
  }

  /** Small scales all give the minimum width. */
  lemma SmallScaleWidth(s: real)
    requires s <= 0.4
    ensures ResolveChartRenderWidth(Some(s)) == ContentMinWidth
  {
    var clamped := if s < 0.35 then 0.35 else s;
    assert 896.0 * clamped + 0.5 < 359.0;
  }

  /** `isRadialChart`. */
  predicate IsRadial(chartType: string)
  {
    chartType == "radar" || chartType == "polarArea"
  }

  /**
   * `resolveChartRenderHeight(type, width)` for an integer width: radial charts are square
   * (`max(w, round(0.8 w))` is `w`); the others take `max(round(360 · 9/16), round(w · 9/16))`,
   * where 540/960 is exactly 9/16 and the rounding of `w · 9/16` is `(9w + 8) div 16`.
   */
  function ResolveChartRenderHeight(chartType: string, width: nat): (h: int)
    ensures IsRadial(chartType) ==> h == width
    ensures !IsRadial(chartType) ==> h >= 203 && h >= (9 * width) / 16 && h > 0
  {
    if IsRadial(chartType) then
      var r := Round(width as real * 0.8);
      if width >= r then width else r
    else
      var floor := Round(360.0 * 0.5625);
      var scaled := Round(width as real * 0.5625);
      if floor >= scaled then floor else scaled
  }

  /** The rounding in the height is the integer `(9w + 8) div 16`; in particular the minimum is 203. */
  lemma HeightIsIntegral(chartType: string, width: nat)
    requires !IsRadial(chartType)
    ensures ResolveChartRenderHeight(chartType, width) == (if 203 >= (9 * width + 8) / 16 then 203 else (9 * width + 8) / 16)
  {
    var q := (9 * width + 8) / 16;
    assert Round(360.0 * 0.5625) == 203;
    assert q as real <= width as real * 0.5625 + 0.5 < q as real + 1.0;
  }

  /** `TYPE_MAP`'s keys, each mapped to itself. */
  predicate IsChartType(t: string)
  {
    t == "bar" || t == "line" || t == "radar" || t == "doughnut" || t == "polarArea"
    || t == "bubble" || t == "pie" || t == "scatter"
  }

  /** `normaliseChartType(rawType)`: a known type as it is, anything else (or nothing) `bar`. */
  function NormaliseChartType(rawType: Option<string>): (t: string)
    ensures IsChartType(t)
    ensures rawType.Some? && IsChartType(rawType.value) ==> t == rawType.value
    ensures !(rawType.Some? && IsChartType(rawType.value)) ==> t == "bar"
  {
    if !Truthy(rawType) then "bar"
    else if IsChartType(rawType.value) then rawType.value
    else "bar"
  }

  /** The identity of a chart image: what `hashChartInput` digests. */
  datatype ChartKey = ChartKey(data: ChartData, chartTheme: Theme, width: int, height: int)

  /** `ChartAssetInfo`. */
  datatype ChartAssetInfo = ChartAssetInfo(hash: string, fileName: string, absolutePath: Path, width: int, height: int)

  /** The key of a chart rendered at `width`: the height follows from the normalised type. */
  function KeyFor(theme: Theme, data: ChartData, width: nat): (k: ChartKey)
    ensures k.width == width && k.data == data && k.chartTheme == ChartTheme(theme)
  {
    ChartKey(data, ChartTheme(theme), width, ResolveChartRenderHeight(NormaliseChartType(data.chartType), width))
  }

  /** The file name of a stored chart. */
  function FileName(hash: string): string
  {
    "chart-" + hash + ".png"
  }

  /** The lookup of `getAssetHref` in a given table of stored images. */
  function AssetHrefIn(theme: Theme, assets: OrderedMap<ChartKey, ChartAssetInfo>, data: ChartData, pageDir: Path, targetWidth: int): (r: Option<ChartHref>)
    ensures r.Some? <==> KeyFor(theme, data, Clamp(targetWidth)) in assets.entries
    ensures r.Some? ==> r.value.src != "" && r.value.src[0] == '.'
  {
    var key := KeyFor(theme, data, Clamp(targetWidth));
    match assets.Get(key)
    case None => None
    case Some(asset) =>
      Some(ChartHref(DotPrefixed(Posix(Relative(pageDir, asset.absolutePath))), asset.width, asset.height))
  }

  class ChartAssetManager {
    const theme: Theme
    const versionOutDir: Path
    /** The hex digest of a key (SHA-1 of its JSON form). */
    const digest: ChartKey -> string
    /** Whether Chart.js renders the chart of a key without throwing. */
    const renders: ChartKey -> bool
    var assets: OrderedMap<ChartKey, ChartAssetInfo>

    /** Each stored info is the one `ensureAsset` makes for its key. */
    ghost predicate Valid()
      reads this
    {
      assets.Valid() && forall k :: k in assets.entries ==> assets.entries[k] == InfoFor(k)
    }

    /** The info `ensureAsset` stores for a key: `charts/chart-<hash>.png` under the version directory. */
    function InfoFor(k: ChartKey): (info: ChartAssetInfo)
      ensures info.width == k.width && info.height == k.height
      ensures info.absolutePath == versionOutDir + [ChartSubdir, FileName(digest(k))]
    {
      var fileName := FileName(digest(k));
      ChartAssetInfo(digest(k), fileName, versionOutDir + [ChartSubdir, fileName], k.width, k.height)
    }

    constructor(theme: Theme, versionOutDir: Path, digest: ChartKey -> string, renders: ChartKey -> bool)
      ensures Valid() && this.assets.keys == []
      ensures this.theme == theme && this.versionOutDir == versionOutDir
      ensures this.digest == digest && this.renders == renders
    {
      this.theme := theme;
      this.versionOutDir := versionOutDir;
      this.digest := digest;
      this.renders := renders;
      this.assets := Empty();
    }

    /** `ensureAsset` on a value: the stored info, or a new one, or the render error with nothing stored. */
    function Ensure(m: OrderedMap<ChartKey, ChartAssetInfo>, k: ChartKey): (r: (Result<ChartAssetInfo>, OrderedMap<ChartKey, ChartAssetInfo>))
      requires m.Valid()
      ensures r.1.Valid()
    {
      if k in m.entries then (Ok(m.entries[k]), m)
      else if renders(k) then (Ok(InfoFor(k)), m.Set(k, InfoFor(k)))
      else (Err("Failed to render chart asset"), m)
    }

    /** `ensureAsset(data, width, height)`. */
    method EnsureAsset(data: ChartData, width: int, height: int) returns (r: Result<ChartAssetInfo>)
      requires Valid()
      modifies this
      ensures Valid()
      ensures (r, assets) == Ensure(old(assets), ChartKey(data, ChartTheme(theme), width, height))
    {
      var key := ChartKey(data, ChartTheme(theme), width, height);
      var existing := assets.Get(key);
      if existing.Some? {
        return Ok(existing.value);
      }
      if !renders(key) {
        return Err("Failed to render chart asset");
      }
      var info := InfoFor(key);
      assets := assets.Set(key, info);
      r := Ok(info);
    }

    /** The key `prepareContent` uses for a chart block. */
    function BlockKey(data: ChartData): ChartKey
    {
      KeyFor(theme, data, ResolveChartRenderWidth(data.scale))
    }

    /** Whether `prepareContent` renders a block: a chart block with chart data. */
    static predicate IsChartBlock(b: Content)
    {
      b.blockType == Some("chart") && b.chartData.Some?
    }

    /** `prepareContent` over `blocks`, from the map `m`: stops at the first render error. */
    function Prepare(m: OrderedMap<ChartKey, ChartAssetInfo>, blocks: seq<Content>): (r: (Result<()>, OrderedMap<ChartKey, ChartAssetInfo>))
      requires m.Valid()
      ensures r.1.Valid()
      decreases |blocks|
    {
      if blocks == [] then (Ok(()), m)
      else if IsChartBlock(blocks[0]) then
        var (res, m1) := Ensure(m, BlockKey(blocks[0].chartData.value));
        if res.Err? then (Err(res.error), m1) else Prepare(m1, blocks[1..])
      else Prepare(m, blocks[1..])
    }

    /** `prepareContent(content)`: every chart block's image is rendered, once per key, in block order. */
    method PrepareContent(content: Option<seq<Content>>) returns (r: Result<()>)
      requires Valid()
      modifies this
      ensures Valid()
      ensures (r, assets) == Prepare(old(assets), content.GetOr([]))
    {
      if content.None? || |content.value| == 0 {
        return Ok(());
      }
      var blocks := content.value;
      var i := 0;
      while i < |blocks|
        invariant 0 <= i <= |blocks|
        invariant Valid()
        invariant Prepare(assets, blocks[i..]) == Prepare(old(assets), blocks)
      {
        assert blocks[i..][1..] == blocks[i + 1..];
        assert blocks[i..][0] == blocks[i];
        var block := blocks[i];
        ghost var before := assets;
        if IsChartBlock(block) {
          var data := block.chartData.value;
          var chartType := NormaliseChartType(data.chartType);
          var width := ResolveChartRenderWidth(data.scale);
          var height := ResolveChartRenderHeight(chartType, width);
          var res := EnsureAsset(data, width, height);
          assert (res, assets) == Ensure(before, BlockKey(data));
          if res.Err? {
            return Err(res.error);
          }
        }
        i := i + 1;
      }
      r := Ok(());
    }

    /**
     * `getAssetHref(data, pageDir, targetWidth)`: the stored image for the data at the clamped
     * width, as an href relative to `pageDir` that starts with `.`; `None` when nothing is stored.
     */
    function GetAssetHref(data: ChartData, pageDir: Path, targetWidth: int): (r: Option<ChartHref>)
      reads this
      ensures r.Some? <==> KeyFor(theme, data, Clamp(targetWidth)) in assets.entries
      ensures r.Some? ==> r.value.src != "" && r.value.src[0] == '.'
    {
      AssetHrefIn(theme, assets, data, pageDir, targetWidth)
    }

    /** `listAssets()`: each stored image's path relative to the version directory, in insertion order. */
    function ListAssets(): (r: seq<string>)
      requires Valid()
      reads this
      ensures |r| == |assets.keys|
      ensures forall i :: 0 <= i < |r| ==> r[i] == ChartSubdir + "/" + FileName(digest(assets.keys[i]))
    {
      ListPaths(assets.Values())
    }

    function ListPaths(infos: seq<ChartAssetInfo>): (r: seq<string>)
      requires forall i :: 0 <= i < |infos| ==> infos[i].absolutePath == versionOutDir + [ChartSubdir, infos[i].fileName]
      ensures |r| == |infos|
      ensures forall i :: 0 <= i < |infos| ==> r[i] == ChartSubdir + "/" + infos[i].fileName
    {
      if infos == [] then []
      else
        var f := infos[0].fileName;
        RelativeBelow(versionOutDir, [ChartSubdir, f]);
        assert Relative(versionOutDir, infos[0].absolutePath) == [ChartSubdir, f];
        JoinTwo(ChartSubdir, f, "/");
        [Posix(Relative(versionOutDir, infos[0].absolutePath))] + ListPaths(infos[1..])
    }
  }

  /** A path below `base` is reached from `base` by its own tail. */
  lemma RelativeBelow(base: Path, tail: Path)
    ensures Relative(base, base + tail) == tail
  {
    var n := CommonPrefix(base, base + tail);
    assert (base + tail)[..|base|] == base;
  }

  // ---------------------------------------------------------------------------
  // Properties of the cache

  /** A repeated request for a stored key returns the stored info and renders nothing. */
  lemma EnsureMemoised(mgr: ChartAssetManager, m: OrderedMap<ChartKey, ChartAssetInfo>, k: ChartKey)
    requires m.Valid() && k in m.entries
    ensures mgr.Ensure(m, k) == (Ok(m.entries[k]), m)
  {
  }

  /** A render failure changes nothing. */
  lemma EnsureFailureKeepsMap(mgr: ChartAssetManager, m: OrderedMap<ChartKey, ChartAssetInfo>, k: ChartKey)
    requires m.Valid() && k !in m.entries && !mgr.renders(k)
    ensures mgr.Ensure(m, k).0.Err? && mgr.Ensure(m, k).1 == m
  {
  }

  /** Preparing only adds keys. */
  lemma {:induction false} PrepareGrows(mgr: ChartAssetManager, m: OrderedMap<ChartKey, ChartAssetInfo>, blocks: seq<Content>)
    requires m.Valid()
    ensures m.entries.Keys <= mgr.Prepare(m, blocks).1.entries.Keys
    ensures forall k :: k in m.entries ==> mgr.Prepare(m, blocks).1.entries[k] == m.entries[k]
    decreases |blocks|
  {
    if blocks != [] {
      if ChartAssetManager.IsChartBlock(blocks[0]) {
        var (res, m1) := mgr.Ensure(m, mgr.BlockKey(blocks[0].chartData.value));
        if res.Ok? {
          PrepareGrows(mgr, m1, blocks[1..]);
        }
      } else {
        PrepareGrows(mgr, m, blocks[1..]);
      }
    }
  }

  /**
   * Round trip: when `prepareContent` succeeds on a list holding a chart block, looking the
   * chart up at the width `resolveChartRenderWidth(scale)` finds the stored image, with the
   * stored width and height.
   */
  lemma {:induction false} PrepareThenLookup(mgr: ChartAssetManager, m: OrderedMap<ChartKey, ChartAssetInfo>, blocks: seq<Content>, i: nat, pageDir: Path)
    requires m.Valid() && i < |blocks| && ChartAssetManager.IsChartBlock(blocks[i])
    requires forall k :: k in m.entries ==> m.entries[k] == mgr.InfoFor(k)
    requires mgr.Prepare(m, blocks).0.Ok?
    ensures var data := blocks[i].chartData.value;
      var k := mgr.BlockKey(data);
      k in mgr.Prepare(m, blocks).1.entries
      && mgr.Prepare(m, blocks).1.entries[k] == mgr.InfoFor(k)
      && k.width == ResolveChartRenderWidth(data.scale)
    decreases |blocks|
  {
    var b := blocks[0];
    if ChartAssetManager.IsChartBlock(b) {
      var (res, m1) := mgr.Ensure(m, mgr.BlockKey(b.chartData.value));
      if i == 0 {
        PrepareGrows(mgr, m1, blocks[1..]);
      } else {
        PrepareThenLookup(mgr, m1, blocks[1..], i - 1, pageDir);
      }
    } else {
      PrepareThenLookup(mgr, m, blocks[1..], i - 1, pageDir);
    }
  }

  /**
   * Round trip on the manager: after a successful `prepareContent` of `blocks`, the page
   * lookup of chart block `i` at `resolveChartRenderWidth(scale)` finds an image of that
   * width and of the height of its chart type, with an href starting with `.`.
   */
  lemma PrepareRoundTrip(mgr: ChartAssetManager, m: OrderedMap<ChartKey, ChartAssetInfo>, blocks: seq<Content>, i: nat, pageDir: Path)
    requires m.Valid() && i < |blocks| && ChartAssetManager.IsChartBlock(blocks[i])
    requires forall k :: k in m.entries ==> m.entries[k] == mgr.InfoFor(k)
    requires mgr.Prepare(m, blocks).0.Ok? && mgr.assets == mgr.Prepare(m, blocks).1
    ensures var data := blocks[i].chartData.value;
      var w := ResolveChartRenderWidth(data.scale);
      var r := mgr.GetAssetHref(data, pageDir, w);
      r.Some? && r.value.width == w
      && r.value.height == ResolveChartRenderHeight(NormaliseChartType(data.chartType), w)
      && r.value.src[0] == '.'
  {
    PrepareThenLookup(mgr, m, blocks, i, pageDir);
  }
}
