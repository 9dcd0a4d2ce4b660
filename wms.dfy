/** The WMS service: the capabilities URL, the copy of the parsed
    capabilities layer tree into the viewer's own layer records, and the
    flattening of that tree into the list of displayable (named) layers.

    Parsing the capabilities XML is done by the mapping library; its result
    is the input `CapabilitiesLayer`. */
module WmsService {
  import opened Wrappers
  import opened Strings

  /** A layer node of the parsed capabilities document; `layers` is its
      `Layer` member, which may be absent. */
  datatype CapabilitiesLayer = CapabilitiesLayer(
    name: Option<string>,
    title: Option<string>,
    abstr: Option<string>,
    layers: LayerArray)

  /** The `Layer` member of a capabilities node: absent, or an array. */
  datatype LayerArray = NoLayer | Layer(items: seq<CapabilitiesLayer>)

  /** The viewer's layer record; flat list entries carry no `childLayer`. */
  datatype WmsLayer = WmsLayer(
    name: Option<string>,
    title: Option<string>,
    abstr: Option<string>,
    url: string,
    childLayer: ChildLayers)

  /** The optional `childLayer` member of a layer record. */
  datatype ChildLayers = NoChildLayer | ChildLayer(items: seq<WmsLayer>)

  /** The query `getCapabilities` appends to the cleaned URL. */
  const CapabilitiesQuery: string := "?" + "request=GetCapabilities&service=wms&version=1.3.0"

  /** `cleanUpWMSUrl`: the part of the URL before its first `?`. */
  function CleanUpWmsUrl(url: string): (r: string)
    ensures r <= url
    ensures '?' !in r
    ensures '?' !in url ==> r == url
    ensures '?' in url ==> |r| < |url| && url[|r|] == '?'
  {
    IndexOfCharAbsentOrFirst(url, '?');
    var k := IndexOf(url, "?");
    if k != -1 then url[..k] else url
  }

  /** Cleaning a cleaned URL changes nothing. */
  lemma CleanUpIdempotent(url: string)
    ensures CleanUpWmsUrl(CleanUpWmsUrl(url)) == CleanUpWmsUrl(url)
  {
  }

  /** The URL `getCapabilities` requests. */
  function CapabilitiesUrl(url: string): (r: string)
    ensures CleanUpWmsUrl(url) <= r
    ensures r[|CleanUpWmsUrl(url)|..] == CapabilitiesQuery
  {
    CleanUpWmsUrl(url) + CapabilitiesQuery
  }

  /** Cleaning the capabilities URL gives back the service endpoint: the
      query the service appends is exactly what cleaning removes. */
  lemma CapabilitiesUrlCleansBack(url: string)
    ensures CleanUpWmsUrl(CapabilitiesUrl(url)) == CleanUpWmsUrl(url)
  {
    var c := CleanUpWmsUrl(url);
    var full := c + CapabilitiesQuery;
    assert full == CapabilitiesUrl(url);
    var r := CleanUpWmsUrl(full);
    assert CapabilitiesQuery[0] == '?';
    assert full[|c|] == CapabilitiesQuery[0];
    assert '?' in full;
    assert r <= full && '?' !in r && full[|r|] == '?';
    assert '?' !in c;
    assert |r| == |c|;
    assert r == full[..|r|] && c == full[..|c|];
  }

  /** The children of a capabilities node, an absent `Layer` read as none. */
  function CapabilitiesChildren(layer: CapabilitiesLayer): (cs: seq<CapabilitiesLayer>)
    ensures layer.layers.Layer? ==> cs == layer.layers.items
    ensures layer.layers.NoLayer? ==> cs == []
  {
    match layer.layers
    case NoLayer => []
    case Layer(cs) => cs
  }

  /** `createLayer`: copy the capabilities tree into layer records that
      all carry `url`. */
  function CreateLayer(layer: CapabilitiesLayer, url: string): (r: WmsLayer)
    ensures r.childLayer.ChildLayer?
    ensures |r.childLayer.items| == |CapabilitiesChildren(layer)|
    decreases layer
  {
    var kids := match layer.layers
      case NoLayer => []
      case Layer(cs) => seq(|cs|, i requires 0 <= i < |cs| => CreateLayer(cs[i], url));
    WmsLayer(layer.name, layer.title, layer.abstr, url, ChildLayer(kids))
  }

  /** `getLayerTree` after parsing: the tree copied with the cleaned URL. */
  function GetLayerTree(root: CapabilitiesLayer, wmsUrl: string): (r: WmsLayer)
    ensures r.childLayer.ChildLayer?
  {
    CreateLayer(root, CleanUpWmsUrl(wmsUrl))
  }

  /** Maps a layer record back to a capabilities node (the inverse of the
      copy, forgetting the URL). */
  function Strip(w: WmsLayer): (c: CapabilitiesLayer)
    ensures c.layers.Layer? <==> w.childLayer.ChildLayer?
    decreases w
  {
    var kids := match w.childLayer
      case NoChildLayer => NoLayer
      case ChildLayer(cs) => Layer(seq(|cs|, i requires 0 <= i < |cs| => Strip(cs[i])));
    CapabilitiesLayer(w.name, w.title, w.abstr, kids)
  }

  /** The capabilities tree with every absent `Layer` member read as an
      empty array, as the copy reads it; nothing else changes. */
  function Normalize(c: CapabilitiesLayer): (n: CapabilitiesLayer)
    ensures n.name == c.name && n.title == c.title && n.abstr == c.abstr
    ensures n.layers.Layer? && |n.layers.items| == |CapabilitiesChildren(c)|
    decreases c
  {
    var cs := CapabilitiesChildren(c);
    CapabilitiesLayer(c.name, c.title, c.abstr, Layer(seq(|cs|, i requires 0 <= i < |cs| => Normalize(cs[i]))))
  }

  /** Every node of the capabilities tree has a `Layer` array. */
  ghost predicate HasLayerArrays(c: CapabilitiesLayer)
    decreases c
  {
    match c.layers
    case NoLayer => false
    case Layer(cs) => forall i :: 0 <= i < |cs| ==> HasLayerArrays(cs[i])
  }

  /** A tree whose nodes all have a `Layer` array is already normal. */
  lemma {:induction false} NormalizeKeepsLayerArrays(c: CapabilitiesLayer)
    requires HasLayerArrays(c)
    ensures Normalize(c) == c
    decreases c
  {
    var cs := c.layers.items;
    forall i | 0 <= i < |cs| ensures Normalize(cs[i]) == cs[i] {
      NormalizeKeepsLayerArrays(cs[i]);
    }
    assert Normalize(c).layers.items == cs;
  }

  /** Every node of the layer tree carries `url`. */
  ghost predicate AllUrls(w: WmsLayer, url: string)
    decreases w
  {
    w.url == url &&
    match w.childLayer
    case NoChildLayer => true
    case ChildLayer(cs) => forall i :: 0 <= i < |cs| ==> AllUrls(cs[i], url)
  }

  /** The copy keeps the tree's shape, for every tree: undoing the copy gives
      back the capabilities tree with absent `Layer` members as empty arrays,
      so child counts, child order and name, title and abstract agree at
      every node. */
  lemma {:induction false} CreateLayerPreservesShape(c: CapabilitiesLayer, url: string)
    ensures Strip(CreateLayer(c, url)) == Normalize(c)
    decreases c
  {
    var cs := CapabilitiesChildren(c);
    var kids := CreateLayer(c, url).childLayer.items;
    forall i | 0 <= i < |cs| ensures Strip(kids[i]) == Normalize(cs[i]) {
      CreateLayerPreservesShape(cs[i], url);
    }
    var stripped := Strip(CreateLayer(c, url)).layers.items;
    assert |stripped| == |cs|;
    assert stripped == Normalize(c).layers.items;
  }

  /** A node without a `Layer` array becomes a record with no children. */
  lemma CreateLayerLeaf(c: CapabilitiesLayer, url: string)
    requires c.layers.NoLayer?
    ensures CreateLayer(c, url).childLayer == ChildLayer([])
  {
  }

  /** Every node of the copied tree carries the same URL. */
  lemma {:induction false} CreateLayerUniformUrl(c: CapabilitiesLayer, url: string)
    ensures AllUrls(CreateLayer(c, url), url)
    decreases c
  {
    var kids := CreateLayer(c, url).childLayer.items;
    var cs := CapabilitiesChildren(c);
    forall i | 0 <= i < |kids| ensures AllUrls(kids[i], url) {
      CreateLayerUniformUrl(cs[i], url);
    }
  }

  /** The flat list entry `asList` pushes for a named node. */
  function FlatEntry(w: WmsLayer): (e: WmsLayer)
    ensures e.childLayer.NoChildLayer?
    ensures e.name == w.name && e.title == w.title && e.abstr == w.abstr && e.url == w.url
  {
    WmsLayer(w.name, w.title, w.abstr, w.url, NoChildLayer)
  }

  /** The entries `asList` appends for `w`: a flat entry per named node, in
      pre-order (parent first, then children left to right). */
  function Flatten(w: WmsLayer): (r: seq<WmsLayer>)
    ensures |r| == NamedCount(w)
    ensures w.name.None? && w.childLayer.NoChildLayer? ==> r == []
    decreases w, 1
  {
    (if w.name.Some? then [FlatEntry(w)] else []) +
    match w.childLayer
    case NoChildLayer => []
    case ChildLayer(cs) => FlattenAll(cs)
  }

  /** The entries for a sequence of sibling subtrees, left to right. */
  function FlattenAll(cs: seq<WmsLayer>): (r: seq<WmsLayer>)
    ensures |r| == NamedCountAll(cs)
    decreases cs, 0
  {
    if cs == [] then [] else FlattenAll(cs[..|cs| - 1]) + Flatten(cs[|cs| - 1])
  }

  /** The number of named nodes of a tree, unnamed ones included in the walk. */
  function NamedCount(w: WmsLayer): nat
    decreases w, 1
  {
    (if w.name.Some? then 1 else 0) +
    match w.childLayer
    case NoChildLayer => 0
    case ChildLayer(cs) => NamedCountAll(cs)
  }

  function NamedCountAll(cs: seq<WmsLayer>): nat
    decreases cs, 0
  {
    if cs == [] then 0 else NamedCountAll(cs[..|cs| - 1]) + NamedCount(cs[|cs| - 1])
  }

  /** Each entry of the flat list is named and has no children; a named
      node comes first, and an unnamed one contributes only its children's
      entries. */
  lemma {:induction false} FlattenEntries(w: WmsLayer)
    ensures forall k :: 0 <= k < |Flatten(w)| ==>
      Flatten(w)[k].name.Some? && Flatten(w)[k].childLayer.NoChildLayer?
    ensures w.name.Some? ==> |Flatten(w)| > 0 && Flatten(w)[0] == FlatEntry(w)
    ensures w.name.None? && w.childLayer.ChildLayer? ==> Flatten(w) == FlattenAll(w.childLayer.items)
    decreases w, 1
  {
    if w.childLayer.ChildLayer? {
      FlattenAllEntries(w.childLayer.items);
    }
  }

  lemma {:induction false} FlattenAllEntries(cs: seq<WmsLayer>)
    ensures forall k :: 0 <= k < |FlattenAll(cs)| ==>
      FlattenAll(cs)[k].name.Some? && FlattenAll(cs)[k].childLayer.NoChildLayer?
    decreases cs, 0
  {
    if cs != [] {
      FlattenAllEntries(cs[..|cs| - 1]);
      FlattenEntries(cs[|cs| - 1]);
    }
  }

  /** Siblings are listed left to right: the entries of two rows of
      subtrees are those of the first row followed by those of the second. */
  lemma {:induction false} FlattenAllConcat(a: seq<WmsLayer>, b: seq<WmsLayer>)
    ensures FlattenAll(a + b) == FlattenAll(a) + FlattenAll(b)
    decreases |b|
  {
    if b == [] {
      assert a + b == a;
    } else {
      var b', last := b[..|b| - 1], b[|b| - 1];
      assert (a + b)[..|a + b| - 1] == a + b';
      assert (a + b)[|a + b| - 1] == last;
      assert FlattenAll(a + b) == FlattenAll(a + b') + Flatten(last);
      FlattenAllConcat(a, b');
      assert FlattenAll(b) == FlattenAll(b') + Flatten(last);
    }
  }

  /** Entries flattened from a tree whose nodes all carry `url` carry it too. */
  lemma {:induction false} FlattenKeepsUrl(w: WmsLayer, url: string)
    requires AllUrls(w, url)
    ensures forall k :: 0 <= k < |Flatten(w)| ==> Flatten(w)[k].url == url
    decreases w, 1
  {
    if w.childLayer.ChildLayer? {
      FlattenAllKeepsUrl(w.childLayer.items, url);
    }
  }

  lemma {:induction false} FlattenAllKeepsUrl(cs: seq<WmsLayer>, url: string)
    requires forall i :: 0 <= i < |cs| ==> AllUrls(cs[i], url)
    ensures forall k :: 0 <= k < |FlattenAll(cs)| ==> FlattenAll(cs)[k].url == url
    decreases cs, 0
  {
    if cs != [] {
      FlattenAllKeepsUrl(cs[..|cs| - 1], url);
      FlattenKeepsUrl(cs[|cs| - 1], url);
    }
  }

  /** Every entry listed from a fetched layer tree points at the cleaned
      service URL, which carries no query. */
  lemma LayerTreeEntriesShareUrl(root: CapabilitiesLayer, wmsUrl: string)
    ensures forall k :: 0 <= k < |Flatten(GetLayerTree(root, wmsUrl))| ==>
      Flatten(GetLayerTree(root, wmsUrl))[k].url == CleanUpWmsUrl(wmsUrl)
      && '?' !in Flatten(GetLayerTree(root, wmsUrl))[k].url
  {
    CreateLayerUniformUrl(root, CleanUpWmsUrl(wmsUrl));
    FlattenKeepsUrl(GetLayerTree(root, wmsUrl), CleanUpWmsUrl(wmsUrl));
  }

  /** The caller-supplied array `asList` pushes onto. */
  class LayerList {
    var entries: seq<WmsLayer>

    constructor (initial: seq<WmsLayer>)
      ensures entries == initial
    {
      entries := initial;
    }
  }

  /** `asList`: append the flat entries of `entry` to `list` and return the
      same list. */
  method AsList(entry: WmsLayer, list: LayerList) returns (r: LayerList)
    modifies list
    ensures r == list
    ensures list.entries == old(list.entries) + Flatten(entry)
    decreases entry, 1
  {
    ghost var self := if entry.name.Some? then [FlatEntry(entry)] else [];
    if entry.name.Some? {
      list.entries := list.entries + [FlatEntry(entry)];
    }
    assert list.entries == old(list.entries) + self;
    if entry.childLayer.ChildLayer? && |entry.childLayer.items| > 0 {
      AsListChildren(entry.childLayer.items, list);
      assert Flatten(entry) == self + FlattenAll(entry.childLayer.items);
    } else {
      assert Flatten(entry) == self;
    }
    r := list;
  }

  /** The loop of `asList` over a node's children, left to right. */
  method AsListChildren(cs: seq<WmsLayer>, list: LayerList)
    modifies list
    ensures list.entries == old(list.entries) + FlattenAll(cs)
    decreases cs, 0
  {
    for i := 0 to |cs|
      invariant list.entries == old(list.entries) + FlattenAll(cs[..i])
    {
      ghost var before := list.entries;
      var _ := AsList(cs[i], list);
      FlattenAllPrefix(cs, i);
      assert list.entries == before + Flatten(cs[i]);
    }
    assert cs[..|cs|] == cs;
  }

  /** Growing a prefix of siblings by one appends that sibling's entries. */
  lemma FlattenAllPrefix(cs: seq<WmsLayer>, i: nat)
    requires i < |cs|
    ensures FlattenAll(cs[..i + 1]) == FlattenAll(cs[..i]) + Flatten(cs[i])
  {
    assert cs[..i + 1][..i] == cs[..i];
  }
}
