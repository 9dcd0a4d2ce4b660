/** The dataset service: it fetches the JSON-LD description of a catalogue
    resource, picks the DCAT distribution node out of its `@graph`, works out
    the dataset type from the distribution's `format` unless the resource
    already has one, and returns the dataset the map displays.

    The HTTP exchange is an input: `HttpReply` is what the request produced. */
module DatasetService {
  import opened Wrappers
  import opened Strings

  /** The kinds of dataset the viewer can display. */
  datatype DatasetType = GEOJSON | WMS | FIWARE

  /** An element of a `format` array: a string, or any other JSON value
      (an `@id` object, a number, null). */
  datatype FormatItem = ItemString(s: string) | ItemOther

  /** The `format` of a distribution node as the JSON-LD delivers it: one
      string, an array, or any other JSON value. */
  datatype Format = FormatString(s: string) | FormatArray(items: seq<FormatItem>) | FormatOther

  /** One entry of the `@graph` array; absent members are `None`. */
  datatype GraphNode = GraphNode(
    typ: Option<string>,
    format: Option<Format>,
    title: Option<string>,
    description: Option<string>,
    accessURL: Option<string>)

  /** The decoded response body; `graph` is its `@graph` member. */
  datatype Response = Response(graph: Option<seq<GraphNode>>)

  /** What the HTTP request produced: a transport failure, or a body (`None`
      when the body is null). */
  datatype HttpReply = Unreachable | Delivered(body: Option<Response>)

  /** The catalogue resource the caller asks about. */
  datatype CkanResource = CkanResource(id: string, typ: Option<DatasetType>)

  datatype Configuration = Configuration(proxyUrl: string, apiUrl: string)

  datatype NotSupportedReason = Metadata | FileFormat

  /** The errors `getDataset` can raise. The last three are exceptions of
      JavaScript itself rather than the application's typed errors. */
  datatype DatasetError =
    | NotAvailable(url: string, resource: CkanResource)
    | NotSupported(url: string, resource: CkanResource, reason: NotSupportedReason)
    | NoSupportedFormat      // the plain error for a format no detector recognises
    | PropertyOfUndefined    // a member read on the undefined `dist`
    | NotAString             // `toLowerCase` called on a non-string format

  /** The dataset handed on to the map. */
  datatype Dataset = Dataset(
    resource: CkanResource,
    description: Option<string>,
    title: Option<string>,
    url: Option<string>)

  const DistributionType: string := "http://www.w3.org/ns/dcat#Distribution"

  /** The three markers searched for, in order of precedence. */
  const GeoJsonMarker: string := "geojson"
  const WmsMarker: string := "wms"
  const FiwareMarker: string := "fiware"

  /** `identifyFormat`: classify a format string by case-insensitive
      substring search, GeoJSON before WMS before FIWARE. */
  function IdentifyFormat(format: string): (r: Option<DatasetType>)
    ensures r == Some(GEOJSON) <==> Contains(ToLower(format), GeoJsonMarker)
    ensures r == Some(WMS) <==>
      !Contains(ToLower(format), GeoJsonMarker) && Contains(ToLower(format), WmsMarker)
    ensures r == Some(FIWARE) <==>
      !Contains(ToLower(format), GeoJsonMarker) && !Contains(ToLower(format), WmsMarker)
      && Contains(ToLower(format), FiwareMarker)
    ensures r == None <==>
      !Contains(ToLower(format), GeoJsonMarker) && !Contains(ToLower(format), WmsMarker)
      && !Contains(ToLower(format), FiwareMarker)
  {
    var lower := ToLower(format);
    if IndexOf(lower, GeoJsonMarker) > -1 then Some(GEOJSON)
    else if IndexOf(lower, WmsMarker) > -1 then Some(WMS)
    else if IndexOf(lower, FiwareMarker) > -1 then Some(FIWARE)
    else None
  }

  /** Identification does not depend on the case of the input. */
  lemma IdentifyFormatIgnoresCase(format: string)
    ensures IdentifyFormat(ToLower(format)) == IdentifyFormat(format)
  {
    ToLowerIdempotent(format);
  }

  /** Identifying every element of a string array and keeping the first
      result that is a type: the type of the first element that identifies,
      in array order. */
  function FirstIdentified(items: seq<string>): (r: Option<DatasetType>)
    ensures r == None <==> forall i :: 0 <= i < |items| ==> IdentifyFormat(items[i]) == None
    ensures r != None ==>
      exists i :: 0 <= i < |items| && IdentifyFormat(items[i]) == r
        && forall j :: 0 <= j < i ==> IdentifyFormat(items[j]) == None
  {
    if items == [] then None
    else match IdentifyFormat(items[0])
      case Some(t) => Some(t)
      case None =>
        var rest := FirstIdentified(items[1..]);
        assert forall i :: 1 <= i < |items| ==> items[i] == items[1..][i - 1];
        rest
  }

  predicate AllStrings(items: seq<FormatItem>)
  {
    forall i :: 0 <= i < |items| ==> items[i].ItemString?
  }

  /** The strings of an array whose elements are all strings. */
  function ItemStrings(items: seq<FormatItem>): (r: seq<string>)
    requires AllStrings(items)
    ensures |r| == |items| && forall i :: 0 <= i < |items| ==> r[i] == items[i].s
  {
    seq(|items|, i requires 0 <= i < |items| => items[i].s)
  }

  /** `getFormat`: never yields "no type"; when nothing is recognised it
      throws the generic error. Lower-casing a value that is not a string
      throws a TypeError: the format itself, or any element of an array,
      since every element is identified before the first match is taken. */
  function GetFormat(format: Format): (r: Result<DatasetType, DatasetError>)
    ensures r.Failure? ==> r.error == NoSupportedFormat || r.error == NotAString
    ensures r == Failure(NotAString) <==>
      format.FormatOther? || (format.FormatArray? && !AllStrings(format.items))
    ensures format.FormatString? ==>
      (r.Success? <==> IdentifyFormat(format.s) != None)
      && (r.Success? ==> IdentifyFormat(format.s) == Some(r.value))
    ensures format.FormatArray? && AllStrings(format.items) ==>
      (r.Failure? <==> forall i :: 0 <= i < |format.items| ==> IdentifyFormat(format.items[i].s) == None)
    ensures format.FormatArray? && r.Success? ==>
      AllStrings(format.items)
      && (exists i :: 0 <= i < |format.items| && IdentifyFormat(format.items[i].s) == Some(r.value)
            && forall j :: 0 <= j < i ==> IdentifyFormat(format.items[j].s) == None)
  {
    if format.FormatOther? then Failure(NotAString)
    else if format.FormatArray? && !AllStrings(format.items) then Failure(NotAString)
    else
      var found := match format
        case FormatString(s) => IdentifyFormat(s)
        case FormatArray(items) => FirstIdentified(ItemStrings(items));
      if found.Some? then Success(found.value)
      else Failure(NoSupportedFormat)
  }

  predicate IsDistribution(node: GraphNode)
  {
    node.typ == Some(DistributionType)
  }

  /** The node the `forEach` over `@graph` leaves in `dist`: the last
      distribution node, since every later match overwrites an earlier one. */
  function LastDistribution(graph: seq<GraphNode>): (r: Option<GraphNode>)
    ensures r == None <==> forall i :: 0 <= i < |graph| ==> !IsDistribution(graph[i])
    ensures r != None ==>
      exists i :: 0 <= i < |graph| && graph[i] == r.value && IsDistribution(graph[i])
        && forall j :: i < j < |graph| ==> !IsDistribution(graph[j])
  {
    if graph == [] then None
    else if IsDistribution(graph[|graph| - 1]) then Some(graph[|graph| - 1])
    else LastDistribution(graph[..|graph| - 1])
  }

  /** The scan itself, a loop that overwrites `dist` on every match. */
  method ScanGraph(graph: seq<GraphNode>) returns (dist: Option<GraphNode>)
    ensures dist == LastDistribution(graph)
  {
    dist := None;
    var i := 0;
    while i < |graph|
      invariant 0 <= i <= |graph|
      invariant dist == LastDistribution(graph[..i])
    {
      assert graph[..i + 1][..i] == graph[..i];
      if IsDistribution(graph[i]) {
        dist := Some(graph[i]);
      }
      i := i + 1;
    }
    assert graph[..i] == graph;
  }

  /** The URL reported in errors: the API base, `distributions/`, the id. */
  function DistributionsUrl(config: Configuration, resource: CkanResource): (u: string)
    ensures |u| >= |resource.id| && u[|u| - |resource.id|..] == resource.id
    ensures |u| >= |config.apiUrl| && u[..|config.apiUrl|] == config.apiUrl
    ensures |u| == |config.apiUrl| + |"distributions/"| + |resource.id|
    ensures u[|config.apiUrl|..|u| - |resource.id|] == "distributions/"
  {
    config.apiUrl + "distributions/" + resource.id
  }

  /** The URL actually requested: the proxy followed by the distributions URL. */
  function RequestUrl(config: Configuration, resource: CkanResource): (u: string)
    ensures |u| >= |config.proxyUrl| && u[..|config.proxyUrl|] == config.proxyUrl
    ensures u[|config.proxyUrl|..] == DistributionsUrl(config, resource)
  {
    config.proxyUrl + DistributionsUrl(config, resource)
  }

  /** The metadata the response must carry: a body with a non-empty `@graph`. */
  predicate MetadataMissing(body: Option<Response>)
  {
    body.None? || body.value.graph.None? || |body.value.graph.value| == 0
  }

  /** `getDataset`, from the reply of the request to `RequestUrl` onwards. */
  function GetDataset(config: Configuration, resource: CkanResource, reply: HttpReply): (r: Result<Dataset, DatasetError>)
    ensures r == Failure(NotAvailable(DistributionsUrl(config, resource), resource)) <==> reply.Unreachable?
    ensures r == Failure(NotSupported(DistributionsUrl(config, resource), resource, Metadata)) <==>
      reply.Delivered? && MetadataMissing(reply.body)
    ensures r.Failure? && r.error.NotSupported? ==> r.error.reason == Metadata
    ensures r.Success? ==>
      reply.Delivered? && !MetadataMissing(reply.body)
      && var dist := LastDistribution(reply.body.value.graph.value);
      && dist.Some?
      && r.value.title == dist.value.title
      && r.value.description == dist.value.description
      && r.value.url == dist.value.accessURL
      && r.value.resource.id == resource.id
      && r.value.resource.typ.Some?
      && (resource.typ.Some? ==> r.value.resource == resource)
      && (resource.typ.None? ==>
            dist.value.format.Some? && GetFormat(dist.value.format.value) == Success(r.value.resource.typ.value))
    ensures (reply.Delivered? && !MetadataMissing(reply.body)
             && LastDistribution(reply.body.value.graph.value).None?) ==> r == Failure(PropertyOfUndefined)
    ensures reply.Delivered? && !MetadataMissing(reply.body) ==>
      var dist := LastDistribution(reply.body.value.graph.value);
      dist.Some? ==>
        && ((resource.typ.Some?
             || (dist.value.format.Some? && GetFormat(dist.value.format.value).Success?)) ==> r.Success?)
        && (resource.typ.None? && dist.value.format.None? ==> r == Failure(NotAString))
        && (resource.typ.None? && dist.value.format.Some? && GetFormat(dist.value.format.value).Failure? ==>
              r == Failure(GetFormat(dist.value.format.value).error))
  {
    var url := DistributionsUrl(config, resource);
    match reply
    case Unreachable => Failure(NotAvailable(url, resource))
    case Delivered(body) =>
      if MetadataMissing(body) then Failure(NotSupported(url, resource, Metadata))
      else
        var dist := LastDistribution(body.value.graph.value);
        var typed: Result<CkanResource, DatasetError> :=
          if resource.typ.Some? then Success(resource)
          else if dist.None? then Failure(PropertyOfUndefined)
          else if dist.value.format.None? then Failure(NotAString)
          else match GetFormat(dist.value.format.value)
            case Success(t) => Success(resource.(typ := Some(t)))
            case Failure(e) => Failure(e);
        if typed.Failure? then Failure(typed.error)
        else if typed.value.typ.None? then Failure(NotSupported(url, resource.(typ := None), FileFormat))
        else if dist.None? then Failure(PropertyOfUndefined)
        else Success(Dataset(typed.value, dist.value.description, dist.value.title, dist.value.accessURL))
  }

  /** The `fileFormat` error is never raised: a missing type is either
      detected or the detection itself throws first. */
  lemma FileFormatUnreachable(config: Configuration, resource: CkanResource, reply: HttpReply)
    ensures forall url, res :: GetDataset(config, resource, reply) != Failure(NotSupported(url, res, FileFormat))
  {
  }
}
