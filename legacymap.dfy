/** The older map component (`src/app/map`). Unlike the newer one it keeps
    its projection in a field that a GeoJSON draw overwrites and every later
    draw reuses, it filters base layers on that raw code without resolving
    aliases, and it has no WMS layer list.

    What the mapping library computes is part of the options: the
    projection `readProjection` finds in the GeoJSON and the extent of the
    vector source built from it. */
module LegacyMapComponent {
  import opened Wrappers
  import opened MapConfig

  const InitialProjection: string := "EPSG:4326"

  /** The component's `options` input; a WMS URL is carried but never drawn. */
  datatype LegacyOptions =
    | GeoJsonOptions(projection: Option<string>, sourceExtent: Option<Extent>)
    | WmsOptions(url: string)
    | PlainOptions

  /** A layer of the drawn map: a base tile layer or the GeoJSON vector layer. */
  datatype LegacyLayer = BaseTile(base: BaseLayer) | GeoJsonVector

  /** The drawn map: its view projection, its layers, and the extent the
      view was fitted to (none when the extent lookup threw). */
  datatype LegacyMapState = LegacyMapState(projection: string, layers: seq<LegacyLayer>, fitted: Option<Extent>)

  /** The base layers as map layers. */
  function BaseTiles(base: seq<BaseLayer>): (r: seq<LegacyLayer>)
    ensures |r| == |base| && forall i :: 0 <= i < |base| ==> r[i] == BaseTile(base[i])
  {
    seq(|base|, i requires 0 <= i < |base| => BaseTile(base[i]))
  }

  /** The projection after one draw with `options`: a GeoJSON replaces it by
      its declared projection or throws; any other options keep it. */
  function ProjectionAfter(current: string, options: LegacyOptions): (r: Result<string, MapError>)
    ensures r.Failure? <==> options.GeoJsonOptions? && options.projection.None?
    ensures r.Failure? ==> r.error == NoProjectionFound
    ensures options.GeoJsonOptions? && options.projection.Some? ==> r == Success(options.projection.value)
    ensures !options.GeoJsonOptions? ==> r == Success(current)
  {
    match options
    case GeoJsonOptions(projection, _) =>
      if projection.Some? then Success(projection.value) else Failure(NoProjectionFound)
    case _ => Success(current)
  }

  /** The projection field after a run of draws; a draw without options, a
      draw of other options, or a GeoJSON without a projection leaves it as
      it was. A GeoJSON that declares one sets the field even when the draw
      later fails on the extent lookup. */
  function ProjectionAfterDraws(current: string, draws: seq<Option<LegacyOptions>>): (r: string)
    ensures r == current || exists i :: 0 <= i < |draws| && Declares(draws[i], r)
    decreases |draws|
  {
    if draws == [] then current
    else
      var next := if draws[0].Some? && ProjectionAfter(current, draws[0].value).Success?
                  then ProjectionAfter(current, draws[0].value).value else current;
      ProjectionAfterDraws(next, draws[1..])
  }

  /** The draw is a GeoJSON that declares the projection `p`. */
  predicate Declares(draw: Option<LegacyOptions>, p: string)
  {
    draw.Some? && draw.value.GeoJsonOptions? && draw.value.projection == Some(p)
  }

  /** The projection declared by the last GeoJSON with one among the draws. */
  function LastDeclared(draws: seq<Option<LegacyOptions>>): (r: Option<string>)
    ensures r.None? <==> forall i :: 0 <= i < |draws| ==>
      !(draws[i].Some? && draws[i].value.GeoJsonOptions? && draws[i].value.projection.Some?)
  {
    if draws == [] then None
    else
      var last := draws[|draws| - 1];
      if last.Some? && last.value.GeoJsonOptions? && last.value.projection.Some? then last.value.projection
      else LastDeclared(draws[..|draws| - 1])
  }

  /** After any run of draws the projection is the one declared by the last
      GeoJSON that declared one, or the starting projection when none did. */
  lemma {:induction false} ProjectionPersists(current: string, draws: seq<Option<LegacyOptions>>)
    ensures ProjectionAfterDraws(current, draws) ==
      (if LastDeclared(draws).Some? then LastDeclared(draws).value else current)
    decreases |draws|
  {
    if draws != [] {
      var last := draws[|draws| - 1];
      var init := draws[..|draws| - 1];
      ProjectionAfterDrawsSnoc(current, init, last);
      assert init + [last] == draws;
      ProjectionPersists(current, init);
    }
  }

  /** One more draw applies `ProjectionAfter` to the projection so far. */
  lemma {:induction false} ProjectionAfterDrawsSnoc(current: string, draws: seq<Option<LegacyOptions>>, d: Option<LegacyOptions>)
    ensures ProjectionAfterDraws(current, draws + [d]) ==
      var p := ProjectionAfterDraws(current, draws);
      if d.Some? && ProjectionAfter(p, d.value).Success? then ProjectionAfter(p, d.value).value else p
    decreases |draws|
  {
    if draws != [] {
      var next := if draws[0].Some? && ProjectionAfter(current, draws[0].value).Success?
                  then ProjectionAfter(current, draws[0].value).value else current;
      assert (draws + [d])[1..] == draws[1..] + [d];
      ProjectionAfterDrawsSnoc(next, draws[1..], d);
    }
  }

  class LegacyMapComponent {
    var options: Option<LegacyOptions>
    var projection: string
    var mapState: Option<LegacyMapState>
    const config: Configuration

    constructor (config: Configuration)
      ensures this.config == config && options == None
      ensures projection == InitialProjection && mapState == None
    {
      this.config := config;
      options := None;
      projection := InitialProjection;
      mapState := None;
    }

    /** `getExtent`: the extent of the first `defaultMapExtent` entry for
        the current projection code; throws when there is none. */
    function GetExtent(): (r: Result<Extent, MapError>)
      reads this
      ensures r.Failure? <==> forall i :: 0 <= i < |config.defaultMapExtent| ==> config.defaultMapExtent[i].crs != projection
      ensures r.Failure? ==> r.error == NoDefaultExtent(projection)
      ensures r.Success? ==>
        exists i :: 0 <= i < |config.defaultMapExtent| && config.defaultMapExtent[i].crs == projection
          && config.defaultMapExtent[i].extent == r.value
          && forall j :: 0 <= j < i ==> config.defaultMapExtent[j].crs != projection
    {
      FindDefaultExtent(config.defaultMapExtent, projection)
    }

    /** `createBaseLayers`: the layers for the configuration entries that
        apply to the current projection code as it stands. */
    method CreateBaseLayers() returns (layers: seq<BaseLayer>)
      ensures layers == BuiltLayers(KeptConfigs(config.baseLayer, projection))
    {
      layers := BuildBaseLayers(config.baseLayer, projection);
    }

    /** `drawMap`. Without options nothing happens. A GeoJSON without a
        projection throws before anything changes; a GeoJSON with one sets
        the projection field, and other options keep it. The map has the
        base layers for that code, then the vector layer for GeoJSON, and is
        fitted to the vector source's extent when there is one, else to the
        default extent for the code; when there is none the map is left
        unfitted and the error is reported. */
    method DrawMap() returns (error: Option<MapError>)
      modifies this
      ensures options == old(options)
      ensures old(options).None? ==>
        error.None? && projection == old(projection) && mapState == old(mapState)
      ensures old(options).Some? && ProjectionAfter(old(projection), old(options).value).Failure? ==>
        error == Some(NoProjectionFound) && projection == old(projection) && mapState == old(mapState)
      ensures old(options).Some? && ProjectionAfter(old(projection), old(options).value).Success? ==>
        var opts := old(options).value;
        var code := ProjectionAfter(old(projection), opts).value;
        var base := BaseTiles(BuiltLayers(KeptConfigs(config.baseLayer, code)));
        && projection == code
        && mapState.Some? && mapState.value.projection == code
        && mapState.value.layers == base + (if opts.GeoJsonOptions? then [GeoJsonVector] else [])
        && var extent :=
             if opts.GeoJsonOptions? && opts.sourceExtent.Some? then Success(opts.sourceExtent.value)
             else FindDefaultExtent(config.defaultMapExtent, code);
           (extent.Success? ==> error.None? && mapState.value.fitted == Some(extent.value))
           && (extent.Failure? ==> error == Some(extent.error) && mapState.value.fitted.None?)
    {
      if options.None? {
        return None;
      }
      var opts := options.value;
      if opts.GeoJsonOptions? {
        if opts.projection.Some? {
          projection := opts.projection.value;
        } else {
          return Some(NoProjectionFound);
        }
      }

      var baseLayers := CreateBaseLayers();
      var layers := BaseTiles(baseLayers);
      var sourceExtent: Option<Extent> := None;
      if opts.GeoJsonOptions? {
        layers := layers + [GeoJsonVector];
        sourceExtent := opts.sourceExtent;
      }
      var extent := if sourceExtent.Some? then Success(sourceExtent.value) else GetExtent();
      // The map is built before the fit; a failing lookup leaves it unfitted.
      if extent.Failure? {
        mapState := Some(LegacyMapState(projection, layers, None));
        return Some(extent.error);
      }
      mapState := Some(LegacyMapState(projection, layers, Some(extent.value)));
      error := None;
    }

    /** `ngOnChanges` over a run of option changes: each change sets
        `options` and redraws. The projection field then follows the fold
        `ProjectionAfterDraws`, so it holds the projection of the last
        GeoJSON that declared one, or the one it started with. */
    method OnOptionsChanges(draws: seq<Option<LegacyOptions>>)
      modifies this
      ensures projection == ProjectionAfterDraws(old(projection), draws)
      ensures projection == (if LastDeclared(draws).Some? then LastDeclared(draws).value else old(projection))
    {
      for i := 0 to |draws|
        invariant projection == ProjectionAfterDraws(old(projection), draws[..i])
      {
        options := draws[i];
        var _ := DrawMap();
        ProjectionAfterDrawsSnoc(old(projection), draws[..i], draws[i]);
        assert draws[..i + 1] == draws[..i] + [draws[i]];
      }
      assert draws[..|draws|] == draws;
      ProjectionPersists(old(projection), draws);
    }
  }
}
