/** The map component (`src/app/components/map`): it picks the projection
    from the options, canonicalises projection aliases for choosing base
    layers, appends one toggleable tile layer per WMS layer to its
    `wmsLayers` list, and fits the view to the GeoJSON extent or the
    configured default.

    What the mapping library computes is part of the options: the
    projection `readProjection` finds in the GeoJSON and the extent of the
    vector source built from it. */
module MapComponent {
  import opened Wrappers
  import opened MapConfig

  const Epsg4326: string := "EPSG:4326"
  const Epsg3857: string := "EPSG:3857"

  /** The projection codes the mapping library registers as aliases of
      EPSG:3857 and of EPSG:4326. */
  datatype Aliases = Aliases(epsg3857: seq<string>, epsg4326: seq<string>)

  /** The library's lists as shipped: each holds its own canonical code and
      the two lists share no code. */
  ghost predicate WellFormedAliases(aliases: Aliases)
  {
    Epsg3857 in aliases.epsg3857 && Epsg4326 in aliases.epsg4326
    && forall c :: c in aliases.epsg3857 ==> c !in aliases.epsg4326
  }

  /** `findMapProjection`: an alias of EPSG:3857 (tested first) or of
      EPSG:4326 becomes the canonical code; any other code is kept. */
  function FindMapProjection(aliases: Aliases, code: string): (r: string)
    ensures code in aliases.epsg3857 ==> r == Epsg3857
    ensures code !in aliases.epsg3857 && code in aliases.epsg4326 ==> r == Epsg4326
    ensures code !in aliases.epsg3857 && code !in aliases.epsg4326 ==> r == code
  {
    if code in aliases.epsg3857 then Epsg3857
    else if code in aliases.epsg4326 then Epsg4326
    else code
  }

  /** With the library's lists, canonicalising a canonical code changes
      nothing, and a code of either family is one of the two canonical
      codes. */
  lemma FindMapProjectionIdempotent(aliases: Aliases, code: string)
    requires WellFormedAliases(aliases)
    ensures FindMapProjection(aliases, FindMapProjection(aliases, code)) == FindMapProjection(aliases, code)
    ensures (code in aliases.epsg3857 || code in aliases.epsg4326) ==>
      FindMapProjection(aliases, code) in {Epsg3857, Epsg4326}
  {
    if code !in aliases.epsg3857 && code in aliases.epsg4326 {
      assert Epsg4326 !in aliases.epsg3857;
    }
  }

  /** A layer of the WMS options as the component reads it. */
  datatype WmsEntry = WmsEntry(
    name: Option<string>,
    title: Option<string>,
    abstr: Option<string>,
    url: string,
    bbox: Option<Extent>)

  /** The component's `options` input. */
  datatype MapOptions =
    | GeoJsonOptions(projection: Option<string>, sourceExtent: Option<Extent>)
    | WmsOptions(layers: seq<WmsEntry>)
    | PlainOptions

  /** `detectProjection`: EPSG:4326 unless the options are GeoJSON, whose
      projection must be readable. */
  function DetectProjection(options: MapOptions): (r: Result<string, MapError>)
    ensures r.Failure? <==> options.GeoJsonOptions? && options.projection.None?
    ensures r.Failure? ==> r.error == NoProjectionFound
    ensures !options.GeoJsonOptions? ==> r == Success(Epsg4326)
    ensures options.GeoJsonOptions? && options.projection.Some? ==> r == Success(options.projection.value)
  {
    match options
    case GeoJsonOptions(projection, _) =>
      if projection.Some? then Success(projection.value) else Failure(NoProjectionFound)
    case _ => Success(Epsg4326)
  }

  /** A tile layer over a WMS source; its visibility changes in place. */
  class TileLayer {
    var visible: bool
    const url: string
    const layersParam: Option<string>

    constructor (visible: bool, url: string, layersParam: Option<string>)
      ensures this.visible == visible && this.url == url && this.layersParam == layersParam
    {
      this.visible := visible;
      this.url := url;
      this.layersParam := layersParam;
    }
  }

  /** An entry of `wmsLayers`: what the legend shows, and the layer. */
  datatype MapWmsLayer = MapWmsLayer(
    title: Option<string>,
    abstr: Option<string>,
    extent: Option<Extent>,
    layer: TileLayer)

  /** A layer of the drawn map. */
  datatype MapLayer = BaseTile(base: BaseLayer) | WmsTile(tile: TileLayer) | GeoJsonVector

  /** The drawn map: its view projection, its layers, and the extent the
      view was fitted to (none when the fit threw). */
  datatype MapState = MapState(projection: string, layers: seq<MapLayer>, fitted: Option<Extent>)

  /** The base layers as map layers. */
  function BaseTiles(base: seq<BaseLayer>): (r: seq<MapLayer>)
    ensures |r| == |base| && forall i :: 0 <= i < |base| ==> r[i] == BaseTile(base[i])
  {
    seq(|base|, i requires 0 <= i < |base| => BaseTile(base[i]))
  }

  /** The tile layers of `wmsLayers` entries, as map layers. */
  function WmsTiles(entries: seq<MapWmsLayer>): (r: seq<MapLayer>)
    ensures |r| == |entries| && forall i :: 0 <= i < |entries| ==> r[i] == WmsTile(entries[i].layer)
  {
    seq(|entries|, i requires 0 <= i < |entries| => WmsTile(entries[i].layer))
  }

  /** Appending an entry appends its tile layer. */
  lemma WmsTilesAppend(entries: seq<MapWmsLayer>, m: MapWmsLayer)
    ensures WmsTiles(entries + [m]) == WmsTiles(entries) + [WmsTile(m.layer)]
  {
    assert |WmsTiles(entries + [m])| == |WmsTiles(entries) + [WmsTile(m.layer)]|;
  }

  /** `wmsLayers` entry `m` was drawn for options layer `e`: the entry's
      legend data, `extent` its bbox, and a layer over its URL and name. */
  ghost predicate DrawnFor(m: MapWmsLayer, e: WmsEntry)
  {
    m.title == e.title && m.abstr == e.abstr && m.extent == e.bbox
    && m.layer.url == e.url && m.layer.layersParam == e.name
  }

  class MapComponent {
    var options: Option<MapOptions>
    var wmsLayers: seq<MapWmsLayer>
    var mapState: Option<MapState>
    const config: Configuration
    const aliases: Aliases

    constructor (config: Configuration, aliases: Aliases)
      ensures this.config == config && this.aliases == aliases
      ensures options == None && wmsLayers == [] && mapState == None
    {
      this.config := config;
      this.aliases := aliases;
      options := None;
      wmsLayers := [];
      mapState := None;
    }

    /** `createBaseLayers`: the layers for the configuration entries that
        apply to the canonicalised projection code. */
    method CreateBaseLayers(projection: string) returns (layers: seq<BaseLayer>)
      ensures layers == BuiltLayers(KeptConfigs(config.baseLayer, FindMapProjection(aliases, projection)))
    {
      var crsCode := FindMapProjection(aliases, projection);
      layers := BuildBaseLayers(config.baseLayer, crsCode);
    }

    /** `toggleVisibility`: flip the visibility of the entry's layer. */
    method ToggleVisibility(layer: MapWmsLayer)
      modifies layer.layer
      ensures layer.layer.visible == !old(layer.layer.visible)
    {
      layer.layer.visible := !layer.layer.visible;
    }

    /** The WMS branch of `drawMap`: one new invisible tile layer per
        options layer, each appended to `wmsLayers` with its legend data;
        returns the tile layers, in order. */
    method AddWmsLayers(entries: seq<WmsEntry>) returns (tiles: seq<MapLayer>)
      modifies this`wmsLayers
      ensures |wmsLayers| == |old(wmsLayers)| + |entries|
      ensures wmsLayers[..|old(wmsLayers)|] == old(wmsLayers)
      ensures var added := wmsLayers[|old(wmsLayers)|..];
        && tiles == WmsTiles(added)
        && (forall k :: 0 <= k < |added| ==> DrawnFor(added[k], entries[k]))
        && (forall k :: 0 <= k < |added| ==> fresh(added[k].layer) && !added[k].layer.visible)
    {
      ghost var drawn: seq<MapWmsLayer> := [];
      tiles := [];
      for i := 0 to |entries|
        invariant wmsLayers == old(wmsLayers) + drawn && |drawn| == i
        invariant forall k :: 0 <= k < i ==>
          DrawnFor(drawn[k], entries[k]) && fresh(drawn[k].layer) && !drawn[k].layer.visible
        invariant tiles == WmsTiles(drawn)
      {
        var e := entries[i];
        var layer := new TileLayer(false, e.url, e.name);
        var m := MapWmsLayer(e.title, e.abstr, e.bbox, layer);
        WmsTilesAppend(drawn, m);
        tiles := tiles + [WmsTile(layer)];
        wmsLayers := wmsLayers + [m];
        drawn := drawn + [m];
      }
      assert wmsLayers[|old(wmsLayers)|..] == drawn;
    }

    /** `drawMap`. Without options nothing happens. A GeoJSON without a
        projection throws before anything changes. Otherwise the map is
        built from the base layers for the canonical code plus, for WMS
        options, one new invisible tile layer per options layer, each also
        appended to `wmsLayers` (which is never cleared). The view is
        fitted to the GeoJSON extent when there is one, else to the default
        extent for the raw projection code; when there is none the map is
        left unfitted and the error is reported. */
    method DrawMap() returns (error: Option<MapError>)
      modifies this
      ensures options == old(options)
      ensures old(options).None? ==> error.None? && wmsLayers == old(wmsLayers) && mapState == old(mapState)
      ensures old(options).Some? && DetectProjection(old(options).value).Failure? ==>
        error == Some(NoProjectionFound) && wmsLayers == old(wmsLayers) && mapState == old(mapState)
      ensures old(options).Some? && DetectProjection(old(options).value).Success? ==>
        var opts := old(options).value;
        var code := DetectProjection(opts).value;
        var base := BaseTiles(BuiltLayers(KeptConfigs(config.baseLayer, FindMapProjection(aliases, code))));
        var added := if opts.WmsOptions? then |opts.layers| else 0;
        && |wmsLayers| == |old(wmsLayers)| + added
        && wmsLayers[..|old(wmsLayers)|] == old(wmsLayers)
        && (forall k :: 0 <= k < |wmsLayers[|old(wmsLayers)|..]| ==>
              DrawnFor(wmsLayers[|old(wmsLayers)|..][k], opts.layers[k]))
        && (forall k :: 0 <= k < |wmsLayers[|old(wmsLayers)|..]| ==>
              fresh(wmsLayers[|old(wmsLayers)|..][k].layer) && !wmsLayers[|old(wmsLayers)|..][k].layer.visible)
        && mapState.Some? && mapState.value.projection == code
        && mapState.value.layers ==
             base + (if opts.GeoJsonOptions? then [GeoJsonVector] else WmsTiles(wmsLayers[|old(wmsLayers)|..]))
        && var extent :=
             if opts.GeoJsonOptions? && opts.sourceExtent.Some? then Success(opts.sourceExtent.value)
             else FindDefaultExtent(config.defaultMapExtent, code);
           (extent.Success? ==> error.None? && mapState.value.fitted == Some(extent.value))
           && (extent.Failure? ==> error == Some(extent.error) && mapState.value.fitted.None?)
    {
      if options.None? {
        return None;
      }
      var opts := options.value;
      var projection := DetectProjection(opts);
      if projection.Failure? {
        return Some(projection.error);
      }
      var code := projection.value;
      var baseLayers := CreateBaseLayers(code);
      var layers := BaseTiles(baseLayers);

      if opts.WmsOptions? {
        var tiles := AddWmsLayers(opts.layers);
        layers := layers + tiles;
      }

      if opts.GeoJsonOptions? {
        layers := layers + [GeoJsonVector];
      }
      var extent := if opts.GeoJsonOptions? && opts.sourceExtent.Some?
        then Success(opts.sourceExtent.value)
        else FindDefaultExtent(config.defaultMapExtent, code);
      // The map is built before the fit; a failing lookup leaves it unfitted.
      if extent.Failure? {
        mapState := Some(MapState(code, layers, None));
        return Some(extent.error);
      }
      mapState := Some(MapState(code, layers, Some(extent.value)));
      error := None;
    }
  }
}
