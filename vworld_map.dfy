/** The VWorld base map: the tile source `VworldMap` (an XYZ source whose
    URL template is chosen by the map type) and `createVworldTileGrop`, the
    fixed group of the two base-map tile layers. */
module VworldMap {
  import opened Wrappers
  import opened MapModel

  /** The `options` of `new VworldMap(options)`; an absent option is
      `Undefined`, and `new VworldMap()` has both absent. */
  datatype VworldOptions = VworldOptions(typ: Value, proxyUrl: Value)

  const SatelliteType: Value := Str("SATELLITE")
  const TileHost: string := "https://xdworld.vworld.kr/2d/"
  const TilePattern: string := "/service/{z}/{x}/{y}."

  function DigitChar(d: nat): char
    requires d < 10
  {
    "0123456789"[d]
  }

  /** The decimal digits of a natural number. */
  function NatText(n: nat): (r: string)
    ensures 1 <= |r|
    ensures forall k :: 0 <= k < |r| ==> '0' <= r[k] <= '9'
  {
    if n < 10 then [DigitChar(n)] else NatText(n / 10) + [DigitChar(n % 10)]
  }

  /** How a template literal writes a primitive. */
  function Text(v: Value): string
  {
    match v
    case Undefined => "undefined"
    case Null => "null"
    case Bool(b) => if b then "true" else "false"
    case Num(n) => if n < 0 then "-" + NatText(-n) else NatText(n)
    case Str(s) => s
  }

  /** `options.proxyUrl || ''`. */
  function ProxyPrefix(proxyUrl: Value): (r: string)
    ensures !Truthy(proxyUrl) ==> r == ""
    ensures proxyUrl.Str? ==> r == proxyUrl.s
  {
    if Truthy(proxyUrl) then Text(proxyUrl) else ""
  }

  /** The file extension: JPEG tiles for the satellite map, PNG otherwise. */
  function Extension(typ: Value): string
  {
    if typ == SatelliteType then "jpeg" else "png"
  }

  /** The path segment naming the tile set. */
  function PathSegment(typ: Value): string
  {
    if typ == SatelliteType then "Satellite" else "Base"
  }

  /** The part of the URL template after the proxy. */
  function ServicePath(typ: Value): string
  {
    TileHost + PathSegment(typ) + TilePattern + Extension(typ)
  }

  /** The URL template handed to the XYZ source. */
  function TileUrl(o: VworldOptions): string
  {
    ProxyPrefix(o.proxyUrl) + ServicePath(o.typ)
  }

  /** `new VworldMap(options)`: the XYZ source with that URL, anonymous
      cross-origin requests and zoom levels up to 19. */
  function VworldSource(o: VworldOptions): (r: TileSource)
    ensures r.XyzSource? && r.url == TileUrl(o)
    ensures r.crossOrigin == "Anonymous" && r.maxZoom == 19
  {
    XyzSource(TileUrl(o), "Anonymous", 19)
  }

  /** The satellite type selects JPEG tiles from the `Satellite` set; every
      other type, a missing one included, PNG tiles from the `Base` set. */
  lemma SourceSelection(typ: Value)
    ensures typ == SatelliteType ==> Extension(typ) == "jpeg" && PathSegment(typ) == "Satellite"
    ensures typ != SatelliteType ==> Extension(typ) == "png" && PathSegment(typ) == "Base"
    ensures Extension(typ) == "jpeg" <==> PathSegment(typ) == "Satellite"
  {
  }

  /** The proxy is a plain prefix of the URL, and a falsy proxy (absent,
      empty, `null`, `0`, `false`) adds nothing. */
  lemma ProxyIsPrefix(o: VworldOptions)
    ensures TileUrl(o) == ProxyPrefix(o.proxyUrl) + TileUrl(o.(proxyUrl := Undefined))
    ensures !Truthy(o.proxyUrl) ==> TileUrl(o) == TileUrl(o.(proxyUrl := Undefined))
  {
    var path := ServicePath(o.typ);
    assert ProxyPrefix(Undefined) == "";
    assert TileUrl(o.(proxyUrl := Undefined)) == "" + path == path;
  }

  /** The URL always ends in `.` and the extension of the selected tile set. */
  lemma UrlEndsWithExtension(o: VworldOptions)
    ensures var u, e := TileUrl(o), Extension(o.typ);
            |e| + 1 <= |u| && u[|u| - |e| - 1..] == "." + e
  {
    var e := Extension(o.typ);
    var pattern := TilePattern[..|TilePattern| - 1];
    assert TilePattern == pattern + ".";
    var head := ProxyPrefix(o.proxyUrl) + TileHost + PathSegment(o.typ) + pattern;
    assert ServicePath(o.typ) == TileHost + PathSegment(o.typ) + pattern + "." + e;
    assert TileUrl(o) == head + ("." + e);
  }

  const GroupId: string := "vworldTileGroup"
  const GroupName: string := "vworld지도"
  const Base2DId: string := "vworld2D"
  const SatelliteId: string := "vworldSatellite"

  /** A base-map tile layer: its id, a VWorld source of the given type,
      four preloaded zoom levels and no interim tiles on error. */
  function BaseMapLayer(id: string, typ: Value, visible: bool): Layer
  {
    Layer(map["id" := Str(id), "preload" := Num(4), "useInterimTilesOnError" := Bool(false)],
          visible, DefaultLayerStyle, TileLayer(VworldSource(VworldOptions(typ, Undefined))))
  }

  /** The group `createVworldTileGrop` returns. */
  function VworldTileGroup(): Layer
  {
    Layer(map["id" := Str(GroupId), "name" := Str(GroupName)], true, DefaultLayerStyle,
          LayerGroup([BaseMapLayer(Base2DId, Str("BASE"), true), BaseMapLayer(SatelliteId, SatelliteType, false)]))
  }

  /** `createVworldTileGrop()`: a fresh group whose child list receives the
      2D layer and then the satellite layer. */
  method CreateVworldTileGroup() returns (g: Layer)
    ensures g == VworldTileGroup()
  {
    var base := BaseMapLayer(Base2DId, Str("BASE"), true);
    var satellite := BaseMapLayer(SatelliteId, SatelliteType, false);
    var children: seq<Layer> := [];
    children := children + [base];
    children := children + [satellite];
    assert children == [base, satellite];
    g := Layer(map["id" := Str(GroupId), "name" := Str(GroupName)], true, DefaultLayerStyle, LayerGroup(children));
  }

  /** The group is identified as `vworldTileGroup` and holds exactly two tile
      layers, `vworld2D` then `vworldSatellite`, of which only the first is
      visible. */
  lemma VworldTileGroupLayout()
    ensures var g := VworldTileGroup();
            && Get(g, "id") == Str(GroupId) && Get(g, "name") == Str(GroupName)
            && g.kind.LayerGroup? && |g.kind.children| == 2
            && Get(g.kind.children[0], "id") == Str(Base2DId)
            && Get(g.kind.children[1], "id") == Str(SatelliteId)
            && g.kind.children[0].kind == TileLayer(VworldSource(VworldOptions(Str("BASE"), Undefined)))
            && g.kind.children[1].kind == TileLayer(VworldSource(VworldOptions(SatelliteType, Undefined)))
            && g.kind.children[0].visible && !g.kind.children[1].visible
  {
  }

  /** Appended to a layer list that has no base-map layers yet, the group
      is where `getFindLayer('id', ...)` finds either base map, and never the
      group itself. */
  lemma VworldGroupLookup(layers: seq<Layer>)
    requires FindLayer(layers, "id", Str(Base2DId)).None?
    requires FindLayer(layers, "id", Str(SatelliteId)).None?
    ensures FindLayer(layers + [VworldTileGroup()], "id", Str(Base2DId)) == Some(Child(|layers|, 0))
    ensures FindLayer(layers + [VworldTileGroup()], "id", Str(SatelliteId)) == Some(Child(|layers|, 1))
  {
    var g := VworldTileGroup();
    var cs := g.kind.children;
    assert Matches(cs[0], "id", Str(Base2DId)) && !Matches(cs[1], "id", Str(Base2DId));
    assert Matches(cs[1], "id", Str(SatelliteId)) && !Matches(cs[0], "id", Str(SatelliteId));
    assert TopMatches(g, "id", Str(Base2DId));
    assert TopMatches(g, "id", Str(SatelliteId));
    FindLayerAppend(layers, g, "id", Str(Base2DId));
    FindLayerAppend(layers, g, "id", Str(SatelliteId));
  }
}
