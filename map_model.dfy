/** The abstract OpenLayers map that the engine works on: layers (tile,
    vector, group), their property bags, vector sources and features, and the
    layer lookup `getFindLayer` of MapUtile.js.

    Layers are values. A layer that the source reaches through an object
    reference is reached here through a `Path`: a top-level position, or a
    child position inside a top-level group. */
module MapModel {
  import opened Wrappers

  /** A JavaScript primitive as stored in a layer's `values_` bag and compared
      with `===`. Numbers are integers here (no NaN, no fractions). */
  datatype Value = Undefined | Null | Bool(b: bool) | Num(n: int) | Str(s: string)

  /** JavaScript truthiness of a primitive. */
  predicate Truthy(v: Value)
  {
    match v
    case Undefined => false
    case Null => false
    case Bool(b) => b
    case Num(n) => n != 0
    case Str(s) => s != ""
  }

  /** A `[lon, lat]` pair. */
  datatype Coord = Coord(lon: real, lat: real)

  /** A JavaScript coordinate array of any nesting depth, as handed to the
      geometry constructors (`[x, y]`, `[[x, y], ...]`, `[[[x, y], ...]]`). */
  datatype Coords = Scalar(x: real) | List(items: seq<Coords>)

  datatype GeometryKind = PointKind | LineStringKind | PolygonKind | CircleKind

  datatype Geometry = Geometry(kind: GeometryKind, coords: Coords)

  /** The style a feature carries: none of its own (the layer's style applies),
      a caller-supplied style object, or the default marker icon. */
  datatype FeatureStyle =
    | Unstyled
    | GivenStyle(ref: nat)
    | MarkerIcon(scale: real, anchorX: real, anchorY: real)

  datatype Feature = Feature(uid: nat, name: Value, geometry: Geometry, style: FeatureStyle)

  function FeatureUid(f: Feature): nat { f.uid }

  /** A vector source: its features in insertion order, the handlers listening
      to its `addfeature` event, and its `wrapX` option. */
  datatype VectorSource = VectorSource(features: seq<Feature>, addFeatureListeners: seq<nat>, wrapX: bool)

  datatype TileSource = XyzSource(url: string, crossOrigin: string, maxZoom: int) | OtherTileSource

  datatype LayerStyle = DefaultLayerStyle | DrawLayerStyle(color: string)

  /** `OtherLayer` is any layer class that is neither a group, a `TileLayer`
      nor a `VectorLayer` (an image layer, say). */
  datatype LayerKind =
    | TileLayer(tile: TileSource)
    | VectorLayer(source: VectorSource)
    | LayerGroup(children: seq<Layer>)
    | OtherLayer

  datatype Layer = Layer(props: map<string, Value>, visible: bool, style: LayerStyle, kind: LayerKind)

  /** `layer.values_?.[key]`: the visibility flag under "visible", a stored
      property otherwise, `undefined` when absent. */
  function Get(l: Layer, key: string): Value
  {
    if key == "visible" then Bool(l.visible)
    else if key in l.props then l.props[key]
    else Undefined
  }

  predicate Matches(l: Layer, key: string, value: Value)
  {
    Get(l, key) == value
  }

  predicate AnyChildMatches(cs: seq<Layer>, key: string, value: Value)
  {
    exists j :: 0 <= j < |cs| && Matches(cs[j], key, value)
  }

  /** The test `getFindLayer` applies to a top-level layer: a group is tested
      through its children only, a tile or vector layer by its own property,
      and any other layer never matches. */
  predicate TopMatches(l: Layer, key: string, value: Value)
  {
    match l.kind
    case LayerGroup(cs) => AnyChildMatches(cs, key, value)
    case TileLayer(_) => Matches(l, key, value)
    case VectorLayer(_) => Matches(l, key, value)
    case OtherLayer => false
  }

  /** The first child at or after `j` that matches. */
  function FirstChild(cs: seq<Layer>, key: string, value: Value, j: nat): (r: Option<nat>)
    requires j <= |cs|
    ensures r.Some? ==> j <= r.value < |cs| && Matches(cs[r.value], key, value)
    ensures r.Some? ==> forall k :: j <= k < r.value ==> !Matches(cs[k], key, value)
    ensures r.None? <==> forall k :: j <= k < |cs| ==> !Matches(cs[k], key, value)
    decreases |cs| - j
  {
    if j == |cs| then None
    else if Matches(cs[j], key, value) then Some(j)
    else FirstChild(cs, key, value, j + 1)
  }

  /** The first top-level layer at or after `i` that matches. */
  function FirstTop(layers: seq<Layer>, key: string, value: Value, i: nat): (r: Option<nat>)
    requires i <= |layers|
    ensures r.Some? ==> i <= r.value < |layers| && TopMatches(layers[r.value], key, value)
    ensures r.Some? ==> forall k :: i <= k < r.value ==> !TopMatches(layers[k], key, value)
    ensures r.None? <==> forall k :: i <= k < |layers| ==> !TopMatches(layers[k], key, value)
    decreases |layers| - i
  {
    if i == |layers| then None
    else if TopMatches(layers[i], key, value) then Some(i)
    else FirstTop(layers, key, value, i + 1)
  }

  /** Where a layer sits in the map: top level, or inside a top-level group. */
  datatype Path = Top(i: nat) | Child(i: nat, j: nat)

  predicate ValidPath(layers: seq<Layer>, p: Path)
  {
    match p
    case Top(i) => i < |layers|
    case Child(i, j) => i < |layers| && layers[i].kind.LayerGroup? && j < |layers[i].kind.children|
  }

  function At(layers: seq<Layer>, p: Path): Layer
    requires ValidPath(layers, p)
  {
    match p
    case Top(i) => layers[i]
    case Child(i, j) => layers[i].kind.children[j]
  }

  /** `getFindLayer(key, value)`: the first top-level layer that matches; when
      that is a group, its first matching child instead of the group itself;
      `undefined` when nothing matches. */
  function FindLayer(layers: seq<Layer>, key: string, value: Value): (r: Option<Path>)
    ensures r.None? <==> forall i :: 0 <= i < |layers| ==> !TopMatches(layers[i], key, value)
    ensures r.Some? ==> ValidPath(layers, r.value) && Matches(At(layers, r.value), key, value)
    ensures r.Some? ==> TopMatches(layers[r.value.i], key, value)
    ensures r.Some? ==> forall k :: 0 <= k < r.value.i ==> !TopMatches(layers[k], key, value)
    ensures r.Some? ==> (r.value.Child? <==> layers[r.value.i].kind.LayerGroup?)
    ensures r.Some? && r.value.Child? ==>
              forall k :: 0 <= k < r.value.j ==> !Matches(layers[r.value.i].kind.children[k], key, value)
  {
    var top := FirstTop(layers, key, value, 0);
    if top.None? then None
    else
      var i := top.value;
      if layers[i].kind.LayerGroup? then
        var j := FirstChild(layers[i].kind.children, key, value, 0);
        Some(Child(i, if j.Some? then j.value else 0))
      else Some(Top(i))
  }

  /** A top-level lookup never returns a group: a match inside a group yields
      the child. */
  lemma FindLayerNeverTopGroup(layers: seq<Layer>, key: string, value: Value)
    ensures var r := FindLayer(layers, key, value);
            r.Some? && r.value.Top? ==> !layers[r.value.i].kind.LayerGroup?
  {
  }

  /** Two layer lists on which the test of `getFindLayer` comes out the same
      at every position. */
  predicate SameMatching(a: seq<Layer>, b: seq<Layer>, key: string, value: Value)
  {
    && |a| == |b|
    && (forall i :: 0 <= i < |a| ==> TopMatches(a[i], key, value) == TopMatches(b[i], key, value))
    && (forall i :: 0 <= i < |a| ==> a[i].kind.LayerGroup? == b[i].kind.LayerGroup?)
    && (forall i :: 0 <= i < |a| && a[i].kind.LayerGroup? ==>
          |a[i].kind.children| == |b[i].kind.children|)
    && (forall i, j :: 0 <= i < |a| && a[i].kind.LayerGroup? && 0 <= j < |a[i].kind.children| ==>
          Matches(a[i].kind.children[j], key, value) == Matches(b[i].kind.children[j], key, value))
  }

  /** The lookup depends only on where the test succeeds. */
  lemma FindLayerDeterminedByMatching(a: seq<Layer>, b: seq<Layer>, key: string, value: Value)
    requires SameMatching(a, b, key, value)
    ensures FindLayer(a, key, value) == FindLayer(b, key, value)
  {
    var ra, rb := FindLayer(a, key, value), FindLayer(b, key, value);
    if ra.Some? {
      var i := ra.value.i;
      assert TopMatches(b[i], key, value);
      var i' := rb.value.i;
      assert TopMatches(a[i'], key, value);
      assert i == i';
      if a[i].kind.LayerGroup? {
        var j, j' := ra.value.j, rb.value.j;
        assert Matches(b[i].kind.children[j], key, value);
        assert Matches(a[i].kind.children[j'], key, value);
        assert j == j';
      }
    }
  }

  /** An empty layer list finds nothing. */
  lemma FindLayerEmpty(key: string, value: Value)
    ensures FindLayer([], key, value) == None
  {
  }

  /** Appending a layer never changes a lookup that already succeeded. When
      the lookup failed before, it now finds the new layer exactly when the
      new layer passes the top-level test. */
  lemma FindLayerAppend(layers: seq<Layer>, l: Layer, key: string, value: Value)
    ensures FindLayer(layers, key, value).Some? ==>
              FindLayer(layers + [l], key, value) == FindLayer(layers, key, value)
    ensures FindLayer(layers, key, value).None? ==>
              (FindLayer(layers + [l], key, value).Some? <==> TopMatches(l, key, value))
    ensures FindLayer(layers, key, value).None? && TopMatches(l, key, value) ==>
              FindLayer(layers + [l], key, value).value.i == |layers|
  {
    var ext := layers + [l];
    var r, r' := FindLayer(layers, key, value), FindLayer(ext, key, value);
    assert forall k :: 0 <= k < |layers| ==> ext[k] == layers[k];
    if r.Some? {
      var i := r.value.i;
      assert TopMatches(ext[i], key, value);
      assert r'.Some?;
    } else {
      if TopMatches(l, key, value) {
        assert TopMatches(ext[|layers|], key, value);
      } else {
        assert forall k :: 0 <= k < |ext| ==> !TopMatches(ext[k], key, value);
      }
    }
  }

  /** Removing a top-level layer that the test rejects never changes a
      lookup's success. */
  lemma FindLayerRemoveOther(layers: seq<Layer>, i: nat, key: string, value: Value)
    requires i < |layers| && !TopMatches(layers[i], key, value)
    ensures FindLayer(layers[..i] + layers[i + 1..], key, value).Some? == FindLayer(layers, key, value).Some?
  {
    var rest := layers[..i] + layers[i + 1..];
    assert forall k :: 0 <= k < i ==> rest[k] == layers[k];
    assert forall k :: i <= k < |rest| ==> rest[k] == layers[k + 1];
    if FindLayer(layers, key, value).Some? {
      var m := FindLayer(layers, key, value).value.i;
      if m < i {
        assert TopMatches(rest[m], key, value);
      } else {
        assert TopMatches(rest[m - 1], key, value);
      }
    } else {
      forall k | 0 <= k < |rest| ensures !TopMatches(rest[k], key, value) {
        if k >= i {
          assert rest[k] == layers[k + 1];
        }
      }
    }
  }

  /** Replaces the layer at `p`; for a child path the enclosing group keeps its
      own properties and its other children. */
  function Put(layers: seq<Layer>, p: Path, l: Layer): (r: seq<Layer>)
    requires ValidPath(layers, p)
    ensures |r| == |layers| && ValidPath(r, p) && At(r, p) == l
    ensures forall k :: 0 <= k < |layers| && k != p.i ==> r[k] == layers[k]
    ensures p.Child? ==> r[p.i].props == layers[p.i].props && r[p.i].visible == layers[p.i].visible
    ensures p.Child? ==> r[p.i].kind.LayerGroup? && |r[p.i].kind.children| == |layers[p.i].kind.children|
    ensures p.Child? ==> forall k :: 0 <= k < |layers[p.i].kind.children| && k != p.j ==>
              r[p.i].kind.children[k] == layers[p.i].kind.children[k]
  {
    match p
    case Top(i) => layers[i := l]
    case Child(i, j) =>
      var g := layers[i];
      layers[i := g.(kind := LayerGroup(g.kind.children[j := l]))]
  }

  /** Two layers that the lookup by `key` cannot tell apart in place of each
      other: same value under `key`, same class, same children. */
  predicate Agree(a: Layer, b: Layer, key: string)
  {
    && Get(a, key) == Get(b, key)
    && a.kind.LayerGroup? == b.kind.LayerGroup?
    && a.kind.OtherLayer? == b.kind.OtherLayer?
    && (a.kind.LayerGroup? ==> a.kind.children == b.kind.children)
  }

  /** Replacing a layer by one that agrees with it on `key` leaves every lookup
      by `key` where it was: the map engine relies on this whenever it adds a
      feature, restyles a layer or flips a visibility flag. */
  lemma FindLayerPut(layers: seq<Layer>, p: Path, l: Layer, key: string, value: Value)
    requires ValidPath(layers, p) && Agree(At(layers, p), l, key)
    ensures FindLayer(Put(layers, p, l), key, value) == FindLayer(layers, key, value)
  {
    var r := Put(layers, p, l);
    match p {
      case Top(i) =>
        assert TopMatches(r[i], key, value) == TopMatches(layers[i], key, value);
      case Child(i, j) =>
        var cs, cs' := layers[i].kind.children, r[i].kind.children;
        assert Matches(cs'[j], key, value) == Matches(cs[j], key, value);
        assert forall k :: 0 <= k < |cs| ==> Matches(cs'[k], key, value) == Matches(cs[k], key, value);
        if AnyChildMatches(cs, key, value) {
          var k :| 0 <= k < |cs| && Matches(cs[k], key, value);
          assert Matches(cs'[k], key, value);
        }
        if AnyChildMatches(cs', key, value) {
          var k :| 0 <= k < |cs'| && Matches(cs'[k], key, value);
          assert Matches(cs[k], key, value);
        }
        assert TopMatches(r[i], key, value) == TopMatches(layers[i], key, value);
    }
    FindLayerDeterminedByMatching(layers, r, key, value);
  }

  /** `map.removeLayer(layer)` for a layer found by `getFindLayer`: only a
      top-level layer is in the map's layer collection; a group child, or
      nothing, leaves the list as it is. */
  function RemoveFound(layers: seq<Layer>, p: Option<Path>): (r: seq<Layer>)
    requires p.Some? ==> ValidPath(layers, p.value)
    ensures p.Some? && p.value.Top? ==> r == layers[..p.value.i] + layers[p.value.i + 1..]
    ensures !(p.Some? && p.value.Top?) ==> r == layers
  {
    if p.Some? && p.value.Top? then layers[..p.value.i] + layers[p.value.i + 1..] else layers
  }

  /** `source.addFeature(f)` for a feature new to the source: it joins the
      end of the features. OpenLayers refuses a feature that is already in
      the source; the engine only ever adds features it has just created,
      and the model leaves the source as it is in that case. */
  function AddFeature(src: VectorSource, f: Feature): (r: VectorSource)
    ensures exists k :: 0 <= k < |r.features| && r.features[k].uid == f.uid
    ensures r.addFeatureListeners == src.addFeatureListeners && r.wrapX == src.wrapX
    ensures (exists k :: 0 <= k < |src.features| && src.features[k].uid == f.uid) ==> r == src
    ensures (forall k :: 0 <= k < |src.features| ==> src.features[k].uid != f.uid) ==>
              r.features == src.features + [f]
  {
    if exists k :: 0 <= k < |src.features| && src.features[k].uid == f.uid then src
    else
      var r := src.(features := src.features + [f]);
      assert r.features[|src.features|].uid == f.uid;
      r
  }
}
