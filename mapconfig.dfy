/** Configuration rules both map components apply in the same way: which
    configured base layers are built for a projection code, which default
    extent is taken, and which feature properties the popup shows. */
module MapConfig {
  import opened Wrappers

  /** A map extent; its numbers are only carried, never computed with. */
  type Extent = seq<real>

  /** One `baseLayer` entry of the configuration. */
  datatype BaseLayerConfig = BaseLayerConfig(
    typ: string,
    crs: Option<string>,
    url: Option<string>,
    minZoom: Option<int>,
    maxZoom: Option<int>)

  /** One `defaultMapExtent` entry of the configuration. */
  datatype ExtentConfig = ExtentConfig(crs: string, extent: Extent)

  datatype Configuration = Configuration(
    baseLayer: seq<BaseLayerConfig>,
    defaultMapExtent: seq<ExtentConfig>)

  /** The tile sources a base layer can have. */
  datatype TileSource = OsmSource | ArcGisSource(url: Option<string>)

  /** A base tile layer built from a configuration entry. */
  datatype BaseLayer = BaseLayer(source: TileSource, minZoom: Option<int>, maxZoom: Option<int>)

  /** The errors drawing a map can raise. */
  datatype MapError = NoProjectionFound | NoDefaultExtent(code: string)

  const OsmType: string := "OSM"
  const ArcGisType: string := "TileArcGIS"
  const GeometryKey: string := "geometry"

  // ---------------------------------------------------------------------
  // Base layers

  /** An entry applies when its `crs` is falsy (absent or empty) or equals
      the code. */
  predicate AppliesTo(conf: BaseLayerConfig, crsCode: string)
  {
    conf.crs.None? || conf.crs.value == "" || conf.crs.value == crsCode
  }

  /** The configured base-layer entries that apply, in configuration order. */
  function KeptConfigs(confs: seq<BaseLayerConfig>, crsCode: string): (r: seq<BaseLayerConfig>)
    ensures forall c :: c in r ==> c in confs && AppliesTo(c, crsCode)
    ensures forall c :: c in confs && AppliesTo(c, crsCode) ==> c in r
    ensures |r| <= |confs|
    ensures |r| == |confs| <==> forall i :: 0 <= i < |confs| ==> AppliesTo(confs[i], crsCode)
  {
    if confs == [] then []
    else
      var last := confs[|confs| - 1];
      KeptConfigs(confs[..|confs| - 1], crsCode) + (if AppliesTo(last, crsCode) then [last] else [])
  }

  /** Filtering keeps the order: filtering two parts and concatenating is
      filtering the whole. */
  lemma {:induction false} KeptConfigsConcat(a: seq<BaseLayerConfig>, b: seq<BaseLayerConfig>, crsCode: string)
    ensures KeptConfigs(a + b, crsCode) == KeptConfigs(a, crsCode) + KeptConfigs(b, crsCode)
    decreases |b|
  {
    if b == [] {
      assert a + b == a;
    } else {
      var b', last := b[..|b| - 1], b[|b| - 1];
      var tail := if AppliesTo(last, crsCode) then [last] else [];
      assert (a + b)[..|a + b| - 1] == a + b';
      assert (a + b)[|a + b| - 1] == last;
      assert KeptConfigs(a + b, crsCode) == KeptConfigs(a + b', crsCode) + tail;
      KeptConfigsConcat(a, b', crsCode);
      assert KeptConfigs(b, crsCode) == KeptConfigs(b', crsCode) + tail;
    }
  }

  /** The `switch` on the entry's type; other types build nothing. */
  function LayerFor(conf: BaseLayerConfig): (r: Option<BaseLayer>)
    ensures r.Some? <==> conf.typ == OsmType || conf.typ == ArcGisType
    ensures r.Some? ==> r.value.minZoom == conf.minZoom && r.value.maxZoom == conf.maxZoom
    ensures r.Some? ==> (r.value.source == OsmSource <==> conf.typ == OsmType)
    ensures r.Some? && conf.typ == ArcGisType ==> r.value.source == ArcGisSource(conf.url)
  {
    if conf.typ == OsmType then Some(BaseLayer(OsmSource, conf.minZoom, conf.maxZoom))
    else if conf.typ == ArcGisType then Some(BaseLayer(ArcGisSource(conf.url), conf.minZoom, conf.maxZoom))
    else None
  }

  /** The layers the `forEach` pushes for a list of entries, in order: at
      most one per entry, and one for every entry exactly when every entry
      has a known type. */
  function BuiltLayers(confs: seq<BaseLayerConfig>): (r: seq<BaseLayer>)
    ensures |r| <= |confs|
    ensures |r| == |confs| <==> forall i :: 0 <= i < |confs| ==> LayerFor(confs[i]).Some?
  {
    if confs == [] then []
    else
      var built := match LayerFor(confs[|confs| - 1]) case Some(l) => [l] case None => [];
      BuiltLayers(confs[..|confs| - 1]) + built
  }

  /** Building keeps the order: building two parts and concatenating is
      building the whole. */
  lemma {:induction false} BuiltLayersConcat(a: seq<BaseLayerConfig>, b: seq<BaseLayerConfig>)
    ensures BuiltLayers(a + b) == BuiltLayers(a) + BuiltLayers(b)
    decreases |b|
  {
    if b == [] {
      assert a + b == a;
    } else {
      var b', last := b[..|b| - 1], b[|b| - 1];
      var built := match LayerFor(last) case Some(l) => [l] case None => [];
      assert (a + b)[..|a + b| - 1] == a + b';
      assert (a + b)[|a + b| - 1] == last;
      assert BuiltLayers(a + b) == BuiltLayers(a + b') + built;
      BuiltLayersConcat(a, b');
      assert BuiltLayers(b) == BuiltLayers(b') + built;
    }
  }

  /** Every built layer comes from an entry that applies and has a known
      type, and every such entry gives its layer. */
  lemma {:induction false} BaseLayersFromApplicableEntries(confs: seq<BaseLayerConfig>, crsCode: string)
    ensures forall l :: l in BuiltLayers(KeptConfigs(confs, crsCode)) ==>
      exists c :: c in confs && AppliesTo(c, crsCode) && LayerFor(c) == Some(l)
    ensures forall c :: c in confs && AppliesTo(c, crsCode) && LayerFor(c).Some? ==>
      LayerFor(c).value in BuiltLayers(KeptConfigs(confs, crsCode))
  {
    BuiltLayersMembers(KeptConfigs(confs, crsCode));
  }

  lemma {:induction false} BuiltLayersMembers(confs: seq<BaseLayerConfig>)
    ensures forall l :: l in BuiltLayers(confs) ==> exists c :: c in confs && LayerFor(c) == Some(l)
    ensures forall c :: c in confs && LayerFor(c).Some? ==> LayerFor(c).value in BuiltLayers(confs)
  {
    if confs != [] {
      var init := confs[..|confs| - 1];
      BuiltLayersMembers(init);
      assert forall c :: c in init ==> c in confs;
      assert forall c :: c in confs ==> c in init || c == confs[|confs| - 1];
    }
  }

  /** `createBaseLayers` once the projection code is known: filter the
      entries, then push a layer for every entry of a known type. */
  method BuildBaseLayers(confs: seq<BaseLayerConfig>, crsCode: string) returns (layers: seq<BaseLayer>)
    ensures layers == BuiltLayers(KeptConfigs(confs, crsCode))
  {
    var layerConfs := KeptConfigs(confs, crsCode);
    layers := [];
    for i := 0 to |layerConfs|
      invariant layers == BuiltLayers(layerConfs[..i])
    {
      assert layerConfs[..i + 1][..i] == layerConfs[..i];
      match LayerFor(layerConfs[i])
      case Some(l) => layers := layers + [l];
      case None =>
    }
    assert layerConfs[..|layerConfs|] == layerConfs;
  }

  // ---------------------------------------------------------------------
  // Default extent

  /** The first `defaultMapExtent` entry for the code; its absence throws. */
  function FindDefaultExtent(entries: seq<ExtentConfig>, code: string): (r: Result<Extent, MapError>)
    ensures r.Failure? <==> forall i :: 0 <= i < |entries| ==> entries[i].crs != code
    ensures r.Failure? ==> r.error == NoDefaultExtent(code)
    ensures r.Success? ==>
      exists i :: 0 <= i < |entries| && entries[i].crs == code && entries[i].extent == r.value
        && forall j :: 0 <= j < i ==> entries[j].crs != code
  {
    if entries == [] then Failure(NoDefaultExtent(code))
    else if entries[0].crs == code then Success(entries[0].extent)
    else
      var rest := FindDefaultExtent(entries[1..], code);
      assert forall i :: 1 <= i < |entries| ==> entries[i] == entries[1..][i - 1];
      rest
  }

  // ---------------------------------------------------------------------
  // Popup properties

  /** One key/value row of the feature popup. */
  datatype Property<V> = Property(key: string, value: V)

  /** The popup rows of a feature, from its key/value pairs in key order:
      every key but `geometry`, paired with its value. */
  function PopupProperties<V>(entries: seq<(string, V)>): (r: seq<Property<V>>)
    ensures |r| <= |entries|
    ensures forall i :: 0 <= i < |r| ==> r[i].key != GeometryKey
    ensures (forall i :: 0 <= i < |entries| ==> entries[i].0 != GeometryKey) ==> |r| == |entries|
  {
    if entries == [] then []
    else
      var (key, value) := entries[|entries| - 1];
      PopupProperties(entries[..|entries| - 1]) + (if key != GeometryKey then [Property(key, value)] else [])
  }

  /** The popup shows exactly the pairs whose key is not `geometry`. */
  lemma {:induction false} PopupPropertiesMembers<V>(entries: seq<(string, V)>)
    ensures forall p :: p in PopupProperties(entries) ==> p.key != GeometryKey && (p.key, p.value) in entries
    ensures forall k, v :: (k, v) in entries && k != GeometryKey ==> Property(k, v) in PopupProperties(entries)
  {
    if entries != [] {
      var init := entries[..|entries| - 1];
      var last := entries[|entries| - 1];
      PopupPropertiesMembers(init);
      assert PopupProperties(entries) ==
        PopupProperties(init) + (if last.0 != GeometryKey then [Property(last.0, last.1)] else []);
      assert (last.0, last.1) == last;
      assert forall e :: e in init ==> e in entries;
      assert forall e :: e in entries ==> e in init || e == entries[|entries| - 1];
    }
  }

  /** The popup keeps key order: the rows of two parts concatenated are the
      rows of the whole. */
  lemma {:induction false} PopupPropertiesConcat<V>(a: seq<(string, V)>, b: seq<(string, V)>)
    ensures PopupProperties(a + b) == PopupProperties(a) + PopupProperties(b)
    decreases |b|
  {
    if b == [] {
      assert a + b == a;
    } else {
      var b' := b[..|b| - 1];
      assert (a + b)[..|a + b| - 1] == a + b';
      assert (a + b)[|a + b| - 1] == b[|b| - 1];
      PopupPropertiesConcat(a, b');
    }
  }
}
