# deu-viewer decision rules, modelled in Dafny

The deu-viewer is an Angular and OpenLayers web viewer for datasets from a
CKAN catalogue. It handles GeoJSON files, WMS services and FIWARE live
feeds. Under the rendering calls sit a few small rules, and this project
models those rules and proves what they guarantee.

- **Dataset service** (`DatasetService`, file `dataset.dfy`):
  - recognising a dataset type from a distribution's `format`;
  - picking the DCAT distribution node out of a JSON-LD `@graph`;
  - the errors of `getDataset`;
  - the URLs it requests.
- **WMS service** (`WmsService`, `wms.dfy`):
  - stripping the query from a service URL;
  - the capabilities URL;
  - the shape-preserving copy of the capabilities layer tree;
  - the pre-order flattening of named layers onto a caller's list.

  `asList` mutates that list, so the list is a class with a `seq` field.
- **FIWARE map handler** (`FiwareHandler`, `fiware.dfy`): a class with the
  reload counter, the per-line colour memo table and the vector source.
  - One timer tick is `Tick`.
  - `transformFeature` deletes `location` from the entry in place.
  - `updateData` clears and refills the source.
- **Map configuration** (`MapConfig`, `mapconfig.dfy`): the rules both map
  components share.
  - which configured base layers are built for a projection code;
  - the default-extent lookup and its error;
  - the popup's property rows.

  The older component applies the same lookup (src/app/map/map.component.ts
  lines 195-202) and the same popup rows (line 185).
- **Map component** (`MapComponent`, `mapcomponent.dfy`), the newer one:
  - projection alias canonicalisation;
  - projection detection;
  - `drawMap`, which builds the layer list, grows `wmsLayers` with one new,
    invisible tile layer per WMS layer and falls back to the default extent;
  - visibility toggling.
- **Legacy map component** (`LegacyMapComponent`, `legacymap.dfy`), the
  older one. It keeps its projection in a field:
  - a GeoJSON draw overwrites that field, and every later draw reuses it;
  - base layers are filtered on the raw code.

`Wrappers` holds `Option` and `Result`. `Strings` holds ASCII lower-casing
and a JavaScript-style `indexOf`.

The library boundary shapes the model:
- What the libraries compute is an input, not a computation:
  - the HTTP reply;
  - the parsed capabilities tree;
  - the projection `readProjection` finds;
  - the extent of a vector source;
  - the random colour channels.
- OpenLayers objects become records. The one exception is an object the
  source changes in place, which becomes a class: a tile layer's
  visibility, a vector source's features, a feed entry.

Where the model departs from the code:
- **The `@graph` scan and `createBaseLayers` loops** are `for`/`while` loops
  proved equal to specification functions: the last match for the scan, a
  filter-then-build for the base layers.
- **`getFormat` never returns a falsy type.** The `DatasetType` enum is
  defined in `src/app/model`, which is not part of this model. It is taken
  to be a string enum, so every detected type is truthy. As a result, the
  `fileFormat` error of `getDataset` is unreachable, and
  `FileFormatUnreachable` proves this.
- **Crashes of JavaScript itself are explicit errors** (`PropertyOfUndefined`,
  `NotAString`):
  - `dist.format` read when no distribution node exists;
  - `dist.description` read when the resource already had a type but no
    distribution node exists;
  - `toLowerCase` called on a non-string format, or on any non-string
    element of a format array. Every element is identified before the first
    match is taken, so this happens even when an earlier element identifies.
- **The source extent is an optional input.** The library's vector source
  always reports an extent array, which is truthy, so in practice GeoJSON
  options always fit to the source extent. The input is modelled as
  optional to keep the fallback to the configured default visible.
- **`readProjection` in the library defaults to EPSG:4326**, so the
  "no projection" error is rare in practice. It is kept as the code has it.
- **The WMS entry's `bbox`.** The newer component reads it, but the
  `WMSLayer` interface of the WMS service has no bounding box. The model
  carries `bbox` as an optional member of the options layer.

## Model

| member | source | states |
|---|---|---|
| Strings.ToLower | src/app/services/dataset.service.ts:81 | result has the input's length and each character is lower-cased (ASCII A-Z) |
| Strings.ToLowerIdempotent | src/app/services/dataset.service.ts:81 | lower-casing twice equals lower-casing once |
| Strings.IndexOf | src/app/services/dataset.service.ts:82-90 | `indexOf`: -1 exactly when the substring does not occur, otherwise the first position where it occurs |
| Strings.IndexOfCharAbsentOrFirst | src/app/services/wms.service.ts:86-87 | `indexOf('?')` is -1 iff the character is absent, else the position of its first occurrence |
| DatasetService.IdentifyFormat | src/app/services/dataset.service.ts:80-92 | GEOJSON iff the lower-cased format contains "geojson"; WMS iff it contains "wms" but not "geojson"; FIWARE iff "fiware" but neither of the others; none iff none of the three |
| DatasetService.IdentifyFormatIgnoresCase | src/app/services/dataset.service.ts:81 | identification gives the same type for a string and its lower-cased form |
| DatasetService.FirstIdentified | src/app/services/dataset.service.ts:69 | none iff no array element identifies; otherwise the type of the first element that identifies, every earlier one identifying nothing |
| DatasetService.GetFormat | src/app/services/dataset.service.ts:66-78 | a string gives its identified type or throws the generic error; an array of strings gives the first identified element's type or throws the generic error iff none identifies; a non-string format, or an array with any non-string element, throws a TypeError; it never yields "no type" |
| DatasetService.LastDistribution | src/app/services/dataset.service.ts:35-40 | none iff no `@graph` node has the DCAT Distribution type; otherwise a node of that type with no such node after it (the last one) |
| DatasetService.ScanGraph | src/app/services/dataset.service.ts:35-40 | the overwriting `forEach` loop ends with the last distribution node |
| DatasetService.DistributionsUrl | src/app/services/dataset.service.ts:26 | the URL is the API base, then `distributions/`, then the resource id |
| DatasetService.RequestUrl | src/app/services/dataset.service.ts:27 | the requested URL is the proxy URL followed by the distributions URL |
| DatasetService.GetDataset | src/app/services/dataset.service.ts:25-54 | NotAvailable iff the request failed; NotSupported(metadata) iff the body, its `@graph` or its entries are missing; with metadata and a distribution node it succeeds iff the resource has a type or the node's format is detected, a missing format and a failing detection giving exactly that error; on success the title, description and URL come from the last distribution node, a preset type is kept unchanged, and a missing type is the detected format; no distribution node gives the undefined-property crash |
| DatasetService.FileFormatUnreachable | src/app/services/dataset.service.ts:42-45 | the `fileFormat` NotSupported error is never produced |
| WmsService.CleanUpWmsUrl | src/app/services/wms.service.ts:84-90 | result is a prefix of the URL without `?`; a URL without `?` is unchanged, otherwise the result stops right before the first `?` |
| WmsService.CleanUpIdempotent | src/app/services/wms.service.ts:84-90 | cleaning a cleaned URL changes nothing |
| WmsService.CapabilitiesUrl | src/app/services/wms.service.ts:92-93 | the request URL is the cleaned URL followed by `?request=GetCapabilities&service=wms&version=1.3.0` |
| WmsService.CapabilitiesUrlCleansBack | src/app/services/wms.service.ts:93 | cleaning the capabilities URL gives back the cleaned service URL |
| WmsService.CreateLayer | src/app/services/wms.service.ts:70-82 | every copied node has a `childLayer` array with as many entries as the node has children |
| WmsService.GetLayerTree | src/app/services/wms.service.ts:51-53 | the fetched tree is the copy with a `childLayer` array at the root |
| WmsService.Normalize | src/app/services/wms.service.ts:80 | reading an absent `Layer` as an empty array keeps name, title and abstract, and gives an array with as many entries as the node has children |
| WmsService.NormalizeKeepsLayerArrays | src/app/services/wms.service.ts:80 | a tree whose nodes all have a `Layer` array is unchanged by that reading, so on such trees the copy undoes exactly |
| WmsService.CreateLayerPreservesShape | src/app/services/wms.service.ts:75-80 | for every tree, copying then stripping gives back the tree with absent `Layer` members as empty arrays: same names, titles, abstracts, child counts and child order at every node |
| WmsService.CreateLayerLeaf | src/app/services/wms.service.ts:80 | a node without `Layer` gets an empty `childLayer` |
| WmsService.CreateLayerUniformUrl | src/app/services/wms.service.ts:79-80 | every node of the copied tree carries the same `url` |
| WmsService.FlatEntry | src/app/services/wms.service.ts:57-62 | the pushed entry copies name, title, abstract and url and has no `childLayer` |
| WmsService.Flatten | src/app/services/wms.service.ts:55-66 | the entries appended for a tree number exactly its named nodes, descendants of unnamed nodes included; a childless unnamed node gives none |
| WmsService.FlattenAll | src/app/services/wms.service.ts:64-66 | the entries for a row of sibling subtrees number exactly their named nodes |
| WmsService.FlattenAllConcat | src/app/services/wms.service.ts:64-66 | siblings are listed left to right: the entries of two rows are those of the first followed by those of the second |
| WmsService.FlattenEntries | src/app/services/wms.service.ts:55-67 | every entry for a tree is named and childless; a named node's own entry comes first; an unnamed node contributes nothing itself but its children's entries are still listed |
| WmsService.FlattenAllEntries | src/app/services/wms.service.ts:64-66 | every entry for a row of sibling subtrees is named and childless |
| WmsService.FlattenKeepsUrl | src/app/services/wms.service.ts:61 | entries flattened from a uniform-url tree carry that url |
| WmsService.FlattenAllKeepsUrl | src/app/services/wms.service.ts:64-66 | the same for a row of sibling subtrees |
| WmsService.LayerTreeEntriesShareUrl | src/app/services/wms.service.ts:52 | every listed entry of a fetched tree points at the cleaned service URL, which has no `?` |
| WmsService.LayerList.constructor | src/app/services/wms.service.ts:55 | the caller's list starts with the given entries |
| WmsService.AsList | src/app/services/wms.service.ts:55-67 | returns the same list; its entries afterwards are the old entries followed by the pre-order flat entries of the named nodes |
| WmsService.AsListChildren | src/app/services/wms.service.ts:64-66 | after the walk over the children the list holds its old entries followed by the children's flat entries, left to right |
| FiwareHandler.TickStep | src/app/components/map/maphandler/firware-map-handler.ts:51-58 | a reload fires iff the incremented counter reaches 60; then the counter is 0, otherwise it is incremented |
| FiwareHandler.Ticks | src/app/components/map/maphandler/firware-map-handler.ts:51-58 | n ticks fire at most n reloads, and a counter in 0..59 stays in 0..59 |
| FiwareHandler.TicksFromValid | src/app/components/map/maphandler/firware-map-handler.ts:51-58 | from a counter in 0..59, n ticks end at (counter + n) mod 60 after (counter + n) div 60 reloads |
| FiwareHandler.ReloadsFromStart | src/app/components/map/maphandler/firware-map-handler.ts:38-39 | from 0, n ticks fire exactly n div 60 reloads and leave the counter in 0..59 |
| FiwareHandler.ToHex | src/app/components/map/maphandler/firware-map-handler.ts:168 | base-16 rendering: a non-empty string of lower-case hexadecimal digits, with no leading zero (0 gives "0"), whose value is the number |
| FiwareHandler.ToHexAppendByte | src/app/components/map/maphandler/firware-map-handler.ts:168 | shifting in a byte appends its two hexadecimal digits |
| FiwareHandler.ToHexOfColorValue | src/app/components/map/maphandler/firware-map-handler.ts:168 | the hexadecimal form of `(1 << 24) + (r << 16) + (g << 8) + b` is "1" then two digits each for r, g and b |
| FiwareHandler.HexColor | src/app/components/map/maphandler/firware-map-handler.ts:168 | the colour is `#` followed by the two hexadecimal digits of r, then of g, then of b |
| FiwareHandler.HexColorDecodes | src/app/components/map/maphandler/firware-map-handler.ts:164-168 | the colour is `#` and six hex digits, and the digit pairs decode back to r, g and b |
| FiwareHandler.Reshape | src/app/components/map/maphandler/firware-map-handler.ts:111-119 | type `Feature`; properties are every member but `location`, values unchanged; geometry is present iff `location` was, and equals it |
| FiwareHandler.ReshapeRoundTrip | src/app/components/map/maphandler/firware-map-handler.ts:111-119 | putting the geometry back under `location` restores the entry exactly |
| FiwareHandler.ResponseEntry.constructor | src/app/components/map/maphandler/firware-map-handler.ts:22-26 | an entry holds the given members |
| FiwareHandler.VectorSource.Clear | src/app/components/map/maphandler/firware-map-handler.ts:107 | the source holds no features |
| FiwareHandler.VectorSource.AddFeatures | src/app/components/map/maphandler/firware-map-handler.ts:108 | the features are appended after the existing ones |
| FiwareHandler.FiwareMapHandler.constructor | src/app/components/map/maphandler/firware-map-handler.ts:36-39 | the counter starts at 0 and the colour table empty |
| FiwareHandler.FiwareMapHandler.FetchUrl | src/app/components/map/maphandler/firware-map-handler.ts:63 | the feed URL is the proxy URL followed by the options URL |
| FiwareHandler.FiwareMapHandler.Tick | src/app/components/map/maphandler/firware-map-handler.ts:51-58 | one timer tick is `TickStep` on the counter, and the counter stays in 0..59 |
| FiwareHandler.FiwareMapHandler.UpdateData | src/app/components/map/maphandler/firware-map-handler.ts:105-109 | the source afterwards holds exactly the new features, none of the old ones |
| FiwareHandler.FiwareMapHandler.TransformFeature | src/app/components/map/maphandler/firware-map-handler.ts:111-119 | the result is `Reshape` of the entry as it was; the entry itself loses `location` and becomes the feature's properties |
| FiwareHandler.FiwareMapHandler.GetColor | src/app/components/map/maphandler/firware-map-handler.ts:158-171 | `black` with the table unchanged when `lineNumber` is missing or falsy (0 included); a line already in the table gets its recorded colour; a new line records and gets the colour of r, g, b; every table colour stays well formed |
| MapConfig.KeptConfigs | src/app/components/map/map.component.ts:304 | an entry is kept iff it has no (or an empty) `crs` or its `crs` equals the code; no more entries than given, and all of them exactly when every entry applies |
| MapConfig.KeptConfigsConcat | src/app/components/map/map.component.ts:304 | filtering two parts and concatenating is filtering the whole, so configuration order is kept and each entry is kept at most once |
| MapConfig.LayerFor | src/app/components/map/map.component.ts:305-322 | `OSM` and `TileArcGIS` build a layer carrying the entry's zoom limits, an ArcGIS one with its URL; any other type builds none |
| MapConfig.BuiltLayers | src/app/components/map/map.component.ts:305-322 | at most one layer per entry, and one for every entry exactly when every entry has a known type |
| MapConfig.BuiltLayersConcat | src/app/components/map/map.component.ts:305-322 | building two parts and concatenating is building the whole, so layers come in configuration order |
| MapConfig.BuiltLayersMembers | src/app/components/map/map.component.ts:305-322 | each built layer comes from an entry of known type, and each such entry's layer is built |
| MapConfig.BaseLayersFromApplicableEntries | src/app/components/map/map.component.ts:301-324 | each base layer comes from an applicable entry of known type, and each such entry gives its layer |
| MapConfig.BuildBaseLayers | src/app/components/map/map.component.ts:301-324 | the `forEach` loop pushes exactly the layers of the kept entries, in order |
| MapConfig.FindDefaultExtent | src/app/components/map/map.component.ts:292-299 | fails with the "no default extent" error for the code iff no entry has that `crs`; otherwise gives the extent of the first such entry |
| MapConfig.PopupProperties | src/app/components/map/map.component.ts:271 | no row has the key `geometry`, there are no more rows than pairs, and every pair gives a row when none has that key |
| MapConfig.PopupPropertiesMembers | src/app/components/map/map.component.ts:271 | the rows are exactly the key/value pairs whose key is not `geometry` |
| MapConfig.PopupPropertiesConcat | src/app/components/map/map.component.ts:271 | the rows keep key order |
| MapComponent.FindMapProjection | src/app/components/map/map.component.ts:326-335 | an EPSG:3857 alias (tested first) becomes `EPSG:3857`, else an EPSG:4326 alias becomes `EPSG:4326`, else the code is unchanged |
| MapComponent.FindMapProjectionIdempotent | src/app/components/map/map.component.ts:326-335 | with disjoint alias lists containing their own codes, canonicalising twice is canonicalising once, and an alias maps to one of the two codes |
| MapComponent.DetectProjection | src/app/components/map/map.component.ts:252-264 | EPSG:4326 for non-GeoJSON options; the GeoJSON's projection when readable; otherwise the "no projection" error |
| MapComponent.TileLayer.constructor | src/app/components/map/map.component.ts:150-158 | a tile layer has the given visibility, URL and `LAYERS` parameter |
| MapComponent.MapComponent.constructor | src/app/components/map/map.component.ts:80 | `wmsLayers` starts empty |
| MapComponent.MapComponent.CreateBaseLayers | src/app/components/map/map.component.ts:301-324 | the base layers are built for the canonicalised projection code |
| MapComponent.MapComponent.ToggleVisibility | src/app/components/map/map.component.ts:102-104 | the layer's visibility is flipped, so toggling twice restores it |
| MapComponent.MapComponent.AddWmsLayers | src/app/components/map/map.component.ts:148-166 | `wmsLayers` keeps its old entries and gains one per options layer, in order: title, abstract and bbox copied, a new invisible tile layer over the entry's URL with its name as `LAYERS`; the returned tiles are those layers in the same order |
| MapComponent.MapComponent.DrawMap | src/app/components/map/map.component.ts:141-250 | nothing changes without options or when the projection is missing; otherwise `wmsLayers` gains, after its old entries, one invisible new tile layer per WMS options layer copying title, abstract, url, name and bbox; the map's layers are the base layers plus those tiles or the GeoJSON vector layer; the view is fitted to the source extent if any, else to the default extent for the raw code, else the error is reported |
| LegacyMapComponent.ProjectionAfter | src/app/map/map.component.ts:112-119 | a GeoJSON with a projection replaces it, one without fails with the "no projection" error, other options keep the current projection |
| LegacyMapComponent.LastDeclared | src/app/map/map.component.ts:112-119 | none iff no draw had a GeoJSON with a declared projection |
| LegacyMapComponent.ProjectionAfterDrawsSnoc | src/app/map/map.component.ts:63 | one more draw applies the projection rule to the field as the earlier draws left it |
| LegacyMapComponent.ProjectionAfterDraws | src/app/map/map.component.ts:63 | the projection field after a run of draws, folding the projection rule over them (a draw without options, of other options, or of a GeoJSON without a projection keeps it; a declared projection is kept even when the draw then fails on the extent): it is the starting projection or one some GeoJSON declared |
| LegacyMapComponent.ProjectionPersists | src/app/map/map.component.ts:63 | the fold over any run of draws gives the projection of the last GeoJSON that declared one, or the starting projection when none did |
| LegacyMapComponent.LegacyMapComponent.constructor | src/app/map/map.component.ts:63 | the projection starts as EPSG:4326 |
| LegacyMapComponent.LegacyMapComponent.GetExtent | src/app/map/map.component.ts:195-202 | fails with the "no default extent" error for the current projection code iff no entry has that `crs`; otherwise the extent of the first entry that has it |
| LegacyMapComponent.LegacyMapComponent.CreateBaseLayers | src/app/map/map.component.ts:204-227 | the base layers are built for the raw projection code, with no alias resolution |
| LegacyMapComponent.LegacyMapComponent.OnOptionsChanges | src/app/map/map.component.ts:74-78 | after a run of option changes, each followed by a redraw, the projection field is the fold's result: the last GeoJSON-declared projection, or the one it had before |
| LegacyMapComponent.LegacyMapComponent.DrawMap | src/app/map/map.component.ts:108-178 | nothing changes without options or when a GeoJSON lacks a projection; otherwise the projection field is updated by the projection rule, the map has the base layers for it plus the vector layer for GeoJSON, and is fitted to the source extent if any, else the default extent for the field's code, else the error is reported |

## Left out
- HTTP, rxjs observables and the `interval` timer: the reply of a request is an input and the timer is reduced to one tick.
- OpenLayers rendering (Map, View, `fit`, overlays, Select interactions, styles, controls, the single-click feature-info request): the map is a record of its projection, layers and fitted extent.
- GeoJSON `readFeatures`/`readProjection`, `WMSCapabilities.read`, `readFeature` and `getExtent`: library parsing and geometry; their results are inputs.
- proj4 definitions and any reprojection: floating-point geodesy in a library.
- Angular plumbing: dependency injection, popup component creation, `setTimeout` for the legend, `createPopup`, `getLegendUrl`, `zoomToExtent`, `closePopup`, and the lifecycle hooks except the legacy component's redraw on each options change (`OnOptionsChanges`).
- `getGeoJSON` and `handleError` of the dataset service: plain request forwarding; the error they raise is the NotAvailable case of `GetDataset`.
- Console logging, including the Style/LegendURL logging of `createLayer`.
- `Math.random`/`Math.round` in `getColor`: the channels r, g and b are parameters in 0..255.
- src/app/components/map/maphandler/geojson-map-handler.ts and src/app/components/modals/error/error.component.ts are not part of this model: the first is library wiring whose rules the map components already show, the second a dialog.
- The map handlers' own `createBaseLayers`/`getDefaultExtent` (used by the FIWARE `initMap`) are not part of this model; their map component counterparts are.
- Strings.ToLower: lower-cases ASCII letters only, not the full Unicode mapping of `toLowerCase`.
- FiwareHandler.FiwareMapHandler.GetColor: the table is keyed by the JSON value itself, not by JavaScript's string conversion of it, so distinct values with the same string form (1 and "1") are distinct keys here. The table also starts truly empty: the source's table is an array, so a `lineNumber` naming one of its inherited members (`length`, `push`, `constructor`) finds that member and returns it instead of a colour; such keys are not modelled, and the promise that every non-black result is a colour holds only for the modelled table.
- FiwareHandler.Json: numbers are exact reals; NaN and infinities are not modelled.
- FiwareHandler.VectorSource.AddFeatures: the library's dropping of features whose id is already present is not modelled; features are appended.
- FiwareHandler.FiwareMapHandler.TransformFeature: the returned feature's properties are a copy of the entry's members, not the same object, so later changes through one are not seen through the other.
- MapComponent.FindMapProjection: the library's alias lists are the parameter `Aliases`, not their actual contents.
- MapConfig.PopupProperties: the feature's keys are given as a sequence of pairs in key order; how the library orders them is not modelled.
- DatasetService.GetDataset: the caller's resource object is returned as a new value with its type set, rather than being updated in place and shared.
- In `GetDataset`, a `@graph` member that is not an array and `@type` members that are not strings are not modelled.
