/** The FIWARE live-feed handler: it polls a JSON endpoint, reshapes every
    entry into a GeoJSON feature, replaces the features on the map on every
    reload, and colours point features by their `lineNumber`.

    The mapping library's objects are reduced to what the handler reads and
    writes: a vector source is the list of its features, a feature is the
    GeoJSON object handed to the library. The one-second timer is reduced to
    its step, and the random colour channels are parameters. */
module FiwareHandler {
  import opened Wrappers

  /** A JSON value of the feed. */
  datatype Json =
    | JNull
    | JBool(b: bool)
    | JNum(n: real)
    | JStr(s: string)
    | JArr(items: seq<Json>)
    | JObj(fields: map<string, Json>)

  /** JavaScript truthiness of a member read; an absent member is undefined. */
  predicate Truthy(v: Option<Json>)
  {
    match v
    case None => false
    case Some(JNull) => false
    case Some(JBool(b)) => b
    case Some(JNum(n)) => n != 0.0
    case Some(JStr(s)) => s != ""
    case Some(_) => true
  }

  /** The GeoJSON feature object `transformFeature` builds. */
  datatype FeatureObject = FeatureObject(typ: string, properties: map<string, Json>, geometry: Option<Json>)

  const LocationKey: string := "location"
  const LineNumberKey: string := "lineNumber"
  const FeatureType: string := "Feature"

  /** Ticks between two reloads of the feed. */
  const SecondsTillReload: nat := 60

  // ---------------------------------------------------------------------
  // The reload counter

  /** One tick of the timer: the new counter and whether a reload fires. */
  function TickStep(counter: int): (r: (int, bool))
    ensures r.1 <==> counter + 1 >= SecondsTillReload
    ensures r.1 ==> r.0 == 0
    ensures !r.1 ==> r.0 == counter + 1
  {
    var next := counter + 1;
    if next >= SecondsTillReload then (0, true) else (next, false)
  }

  /** `n` ticks from `counter`: the final counter and the reloads fired.
      At most one reload fires per tick, and a counter in range stays in
      range. */
  function Ticks(counter: int, n: nat): (r: (int, nat))
    ensures r.1 <= n
    ensures 0 <= counter < SecondsTillReload ==> 0 <= r.0 < SecondsTillReload
  {
    if n == 0 then (counter, 0)
    else
      var (c, reloads) := Ticks(counter, n - 1);
      var (c', fired) := TickStep(c);
      (c', reloads + if fired then 1 else 0)
  }

  /** From a counter in range, `n` ticks end at `(counter + n) mod 60` after
      `(counter + n) div 60` reloads. */
  lemma {:induction false} TicksFromValid(counter: int, n: nat)
    requires 0 <= counter < SecondsTillReload
    ensures Ticks(counter, n) == ((counter + n) % SecondsTillReload, (counter + n) / SecondsTillReload)
  {
    if n > 0 {
      TicksFromValid(counter, n - 1);
      var m := counter + n - 1;
      assert m % 60 + 1 == 60 ==> (m + 1) % 60 == 0 && (m + 1) / 60 == m / 60 + 1;
      assert m % 60 + 1 < 60 ==> (m + 1) % 60 == m % 60 + 1 && (m + 1) / 60 == m / 60;
    }
  }

  /** Starting from 0, `n` ticks trigger exactly `n div 60` reloads. */
  lemma ReloadsFromStart(n: nat)
    ensures Ticks(0, n).1 == n / SecondsTillReload
    ensures 0 <= Ticks(0, n).0 < SecondsTillReload
  {
    TicksFromValid(0, n);
  }

  // ---------------------------------------------------------------------
  // Colours

  function HexDigit(d: nat): (c: char)
    requires d < 16
  {
    if d < 10 then ('0' as int + d) as char else ('a' as int + d - 10) as char
  }

  predicate IsHexDigit(c: char)
  {
    '0' <= c <= '9' || 'a' <= c <= 'f'
  }

  /** The value of a lower-case hexadecimal digit. */
  function DigitValue(c: char): nat
  {
    if '0' <= c <= '9' then c as int - '0' as int
    else if 'a' <= c <= 'f' then c as int - 'a' as int + 10
    else 0
  }

  /** The value of a string of hexadecimal digits, most significant first. */
  function HexValue(s: string): nat
  {
    if s == [] then 0 else HexValue(s[..|s| - 1]) * 16 + DigitValue(s[|s| - 1])
  }

  /** JavaScript's base-16 rendering of a number: lower-case hexadecimal
      digits without leading zeros whose value is the number. */
  function ToHex(n: nat): (s: string)
    ensures |s| > 0 && forall i :: 0 <= i < |s| ==> IsHexDigit(s[i])
    ensures n > 0 ==> s[0] != '0'
    ensures n == 0 ==> s == "0"
    ensures HexValue(s) == n
  {
    DigitRoundTrip(n % 16);
    if n < 16 then [HexDigit(n)]
    else
      var s := ToHex(n / 16) + [HexDigit(n % 16)];
      assert s[..|s| - 1] == ToHex(n / 16);
      s
  }

  lemma ToHexAppend(q: nat, d: nat)
    requires 1 <= q && d < 16
    ensures ToHex(q * 16 + d) == ToHex(q) + [HexDigit(d)]
  {
    var n := q * 16 + d;
    assert n / 16 == q && n % 16 == d;
  }

  /** The colour of `getColor`: the three channels shifted into one number
      above a leading 1 bit, rendered in base 16, and the leading digit
      replaced by `#`. That is `#` followed by two digits per channel. */
  function HexColor(r: nat, g: nat, b: nat): (c: string)
    requires r < 256 && g < 256 && b < 256
    ensures c == "#" + Hex2(r) + Hex2(g) + Hex2(b)
  {
    ToHexOfColorValue(r, g, b);
    var s := ToHex(0x100_0000 + r * 0x1_0000 + g * 0x100 + b);
    "#" + (if |s| > 0 then s[1..] else s)
  }

  /** A colour string: `#` and six lower-case hexadecimal digits. */
  predicate IsColor(s: string)
  {
    |s| == 7 && s[0] == '#' && forall i :: 1 <= i < 7 ==> IsHexDigit(s[i])
  }

  /** The value of the two hexadecimal digits at `s[i]` and `s[i + 1]`. */
  function ChannelAt(s: string, i: nat): nat
    requires i + 1 < |s|
  {
    DigitValue(s[i]) * 16 + DigitValue(s[i + 1])
  }

  /** The two hexadecimal digits of a channel value. */
  function Hex2(x: nat): string
    requires x < 256
  {
    [HexDigit(x / 16), HexDigit(x % 16)]
  }

  lemma DigitRoundTrip(d: nat)
    requires d < 16
    ensures IsHexDigit(HexDigit(d)) && DigitValue(HexDigit(d)) == d
  {
  }

  lemma Hex2Decodes(x: nat)
    requires x < 256
    ensures IsHexDigit(Hex2(x)[0]) && IsHexDigit(Hex2(x)[1])
    ensures ChannelAt(Hex2(x), 0) == x
  {
    DigitRoundTrip(x / 16);
    DigitRoundTrip(x % 16);
  }

  /** Appending one byte appends its two hexadecimal digits. */
  lemma ToHexAppendByte(q: nat, x: nat)
    requires 1 <= q && x < 256
    ensures ToHex(q * 256 + x) == ToHex(q) + Hex2(x)
  {
    ToHexAppend(q, x / 16);
    ToHexAppend(q * 16 + x / 16, x % 16);
    assert (q * 16 + x / 16) * 16 + x % 16 == q * 256 + x;
  }

  /** With the leading 1 in place, the hexadecimal form is "1" followed by
      two digits per channel. */
  lemma ToHexOfColorValue(r: nat, g: nat, b: nat)
    requires r < 256 && g < 256 && b < 256
    ensures ToHex(0x100_0000 + r * 0x1_0000 + g * 0x100 + b) == "1" + Hex2(r) + Hex2(g) + Hex2(b)
  {
    var n2 := 256 + r;
    var n4 := n2 * 256 + g;
    var n6 := n4 * 256 + b;
    assert n6 == 0x100_0000 + r * 0x1_0000 + g * 0x100 + b;
    assert ToHex(1) == "1";
    ToHexAppendByte(1, r);
    var h2 := ToHex(n2);
    assert h2 == "1" + Hex2(r);
    ToHexAppendByte(n2, g);
    var h4 := ToHex(n4);
    assert h4 == h2 + Hex2(g);
    ToHexAppendByte(n4, b);
    assert ToHex(n6) == h4 + Hex2(b);
  }

  /** The generated colour is well formed and encodes r, g and b, in that
      order, as two hexadecimal digits each. */
  lemma HexColorDecodes(r: nat, g: nat, b: nat)
    requires r < 256 && g < 256 && b < 256
    ensures IsColor(HexColor(r, g, b))
    ensures ChannelAt(HexColor(r, g, b), 1) == r
    ensures ChannelAt(HexColor(r, g, b), 3) == g
    ensures ChannelAt(HexColor(r, g, b), 5) == b
  {
    var c := HexColor(r, g, b);
    Hex2Decodes(r);
    Hex2Decodes(g);
    Hex2Decodes(b);
    assert c[1..3] == Hex2(r) && c[3..5] == Hex2(g) && c[5..7] == Hex2(b);
  }

  // ---------------------------------------------------------------------
  // Reshaping a feed entry

  /** The feature `transformFeature` builds from an entry's members: every
      member but `location` becomes a property, `location` the geometry. */
  function Reshape(fields: map<string, Json>): (f: FeatureObject)
    ensures f.typ == FeatureType
    ensures LocationKey !in f.properties
    ensures forall k :: k != LocationKey ==> (k in f.properties <==> k in fields)
    ensures forall k :: k in f.properties ==> k in fields && f.properties[k] == fields[k]
    ensures LocationKey in fields <==> f.geometry.Some?
    ensures LocationKey in fields ==> f.geometry == Some(fields[LocationKey])
  {
    var geometry := if LocationKey in fields then Some(fields[LocationKey]) else None;
    FeatureObject(FeatureType, fields - {LocationKey}, geometry)
  }

  /** Puts the geometry back under `location`. */
  function Restore(f: FeatureObject): map<string, Json>
  {
    match f.geometry
    case None => f.properties
    case Some(g) => f.properties[LocationKey := g]
  }

  /** Reshaping loses nothing: the entry is recovered from the feature. */
  lemma ReshapeRoundTrip(fields: map<string, Json>)
    ensures Restore(Reshape(fields)) == fields
  {
    var back := Restore(Reshape(fields));
    assert back.Keys == fields.Keys;
    forall k | k in fields ensures back[k] == fields[k] {
    }
  }

  /** A decoded entry of the feed response; `delete` changes it in place. */
  class ResponseEntry {
    var fields: map<string, Json>

    constructor (fields: map<string, Json>)
      ensures this.fields == fields
    {
      this.fields := fields;
    }
  }

  /** The library's vector source, reduced to its list of features. */
  class VectorSource {
    var features: seq<FeatureObject>

    constructor (features: seq<FeatureObject>)
      ensures this.features == features
    {
      this.features := features;
    }

    method Clear()
      modifies this
      ensures features == []
    {
      features := [];
    }

    method AddFeatures(fs: seq<FeatureObject>)
      modifies this
      ensures features == old(features) + fs
    {
      features := features + fs;
    }
  }

  /** The handler's own state: the reload counter, the colour memo table and
      the source of its vector layer. */
  class FiwareMapHandler {
    var counter: int
    var colorMap: map<Json, string>
    const source: VectorSource
    const proxyUrl: string
    const optionsUrl: string

    ghost predicate Valid()
      reads this
    {
      0 <= counter < SecondsTillReload &&
      forall k :: k in colorMap ==> IsColor(colorMap[k])
    }

    constructor (proxyUrl: string, optionsUrl: string, features: seq<FeatureObject>)
      ensures Valid()
      ensures counter == 0 && colorMap == map[]
      ensures fresh(source) && source.features == features
      ensures this.proxyUrl == proxyUrl && this.optionsUrl == optionsUrl
    {
      counter := 0;
      colorMap := map[];
      source := new VectorSource(features);
      this.proxyUrl := proxyUrl;
      this.optionsUrl := optionsUrl;
    }

    /** The URL `fetchData` requests: the proxy followed by the feed URL. */
    function FetchUrl(): (u: string)
      reads this
      ensures |u| == |proxyUrl| + |optionsUrl|
      ensures u[..|proxyUrl|] == proxyUrl && u[|proxyUrl|..] == optionsUrl
    {
      proxyUrl + optionsUrl
    }

    /** The body of the one-second timer: count, and on reaching the limit
        reset and report that a reload is due. */
    method Tick() returns (reload: bool)
      requires Valid()
      modifies this`counter
      ensures Valid()
      ensures (counter, reload) == TickStep(old(counter))
    {
      counter := counter + 1;
      reload := false;
      if counter >= SecondsTillReload {
        counter := 0;
        reload := true;
      }
    }

    /** `updateData`: the source afterwards holds exactly the new features. */
    method UpdateData(features: seq<FeatureObject>)
      modifies source
      ensures source.features == features
    {
      source.Clear();
      source.AddFeatures(features);
    }

    /** `transformFeature`: removes `location` from the entry itself and
        returns the feature built from it. */
    method TransformFeature(payload: ResponseEntry) returns (f: FeatureObject)
      modifies payload
      ensures f == Reshape(old(payload.fields))
      ensures payload.fields == f.properties
      ensures LocationKey !in payload.fields
    {
      var geom := if LocationKey in payload.fields then Some(payload.fields[LocationKey]) else None;
      payload.fields := payload.fields - {LocationKey};
      f := FeatureObject(FeatureType, payload.fields, geom);
    }

    /** `getColor`: black for a feature without a truthy `lineNumber`;
        otherwise the colour first recorded for that line, recording
        `HexColor(r, g, b)` when there is none yet. */
    method GetColor(properties: map<string, Json>, r: nat, g: nat, b: nat) returns (color: string)
      requires Valid()
      requires r < 256 && g < 256 && b < 256
      modifies this`colorMap
      ensures Valid()
      ensures var line := if LineNumberKey in properties then Some(properties[LineNumberKey]) else None;
        if !Truthy(line) then color == "black" && colorMap == old(colorMap)
        else if line.value in old(colorMap) then color == old(colorMap)[line.value] && colorMap == old(colorMap)
        else color == HexColor(r, g, b) && colorMap == old(colorMap)[line.value := color]
      ensures color != "black" ==> IsColor(color)
    {
      var line := if LineNumberKey in properties then Some(properties[LineNumberKey]) else None;
      if !Truthy(line) {
        return "black";
      }
      var lineNumber := line.value;
      if lineNumber !in colorMap {
        HexColorDecodes(r, g, b);
        colorMap := colorMap[lineNumber := HexColor(r, g, b)];
      }
      color := colorMap[lineNumber];
    }
  }
}
