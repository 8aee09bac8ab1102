/** The map-layer control: the two base-map buttons, which show one base
    map and hide the other, and the traffic button, which flips the
    traffic-congestion layer. Both handlers find their layers through the
    engine's `getFindLayer` and set the visibility flag of what they find. */
module MapLayerControl {
  import opened Wrappers
  import opened MapModel
  import opened EngineModel
  import opened VworldMap
  import opened MapUtileEngine

  /** The traffic-congestion tile layer of ItsTileMap.js, a WMS source that
      starts hidden. */
  const TrafficLayerId: string := "trafficConfusion"

  function TrafficLayer(): Layer
  {
    Layer(map["id" := Str(TrafficLayerId)], false, DefaultLayerStyle, TileLayer(OtherTileSource))
  }

  /** `layer.setVisible(v)` on whatever `getFindLayer('id', id)` finds; a
      list where nothing is found stays as it is. */
  function SetVisibleFound(layers: seq<Layer>, id: string, v: bool): (r: seq<Layer>)
    ensures |r| == |layers|
    ensures forall id' :: Lookup(r, id') == Lookup(layers, id')
    ensures ReservedAreVector(layers) ==> ReservedAreVector(r)
    ensures Lookup(layers, id).None? ==> r == layers
    ensures Lookup(layers, id).Some? ==>
              var p := Lookup(layers, id).value;
              ValidPath(r, p) && At(r, p) == At(layers, p).(visible := v)
  {
    var p := Lookup(layers, id);
    if p.None? then layers else Replace(layers, p.value, At(layers, p.value).(visible := v))
  }

  /** `mapLayerChange` with the button's `visible` and `invisible` ids. */
  function LayerChange(layers: seq<Layer>, visible: string, invisible: string): seq<Layer>
  {
    SetVisibleFound(SetVisibleFound(layers, visible, true), invisible, false)
  }

  /** `itsMapOnOff` on the layer list: the found layer's flag negated. */
  function ToggleFound(layers: seq<Layer>, id: string): (r: seq<Layer>)
    ensures forall id' :: Lookup(r, id') == Lookup(layers, id')
    ensures ReservedAreVector(layers) ==> ReservedAreVector(r)
  {
    var p := Lookup(layers, id);
    if p.None? then layers else Replace(layers, p.value, At(layers, p.value).(visible := !At(layers, p.value).visible))
  }

  // ---------------------------------------------------------------------
  // The handlers

  /** A layer list that keeps every lookup by id keeps the engine's
      invariant. */
  lemma InvWithSameLookups(s: EngineState, layers: seq<Layer>)
    requires Inv(s) && ReservedAreVector(layers)
    requires forall id :: Lookup(layers, id) == Lookup(s.layers, id)
    ensures Inv(s.(layers := layers))
  {
    assert Lookup(layers, PulseLayerId) == Lookup(s.layers, PulseLayerId);
    assert Lookup(layers, DrawLayerId) == Lookup(s.layers, DrawLayerId);
  }

  /** `getFindLayer('id', id)`, then `setVisible(v)` on what it finds. */
  method SetFoundVisible(m: MapUtile, id: string, v: bool)
    requires m.Valid() && m.mapRef.OpenLayersMap?
    modifies m
    ensures m.State() == old(m.State()).(layers := SetVisibleFound(old(m.layers), id, v))
    ensures m.Valid() && m.mapRef.OpenLayersMap?
  {
    var found := m.GetFindLayer("id", Str(id));
    if found.Some? {
      ghost var s0 := m.State();
      m.SetLayers(Replace(m.layers, found.value, At(m.layers, found.value).(visible := v)));
      InvWithSameLookups(s0, m.layers);
    }
  }

  /** `mapLayerChange(e)`: nothing without an engine; otherwise the layer
      with id `visible` is shown and then the one with id `invisible` is
      hidden, each only when found. */
  method MapLayerChange(m: MapUtile?, visible: string, invisible: string)
    requires m != null ==> m.Valid() && m.mapRef.OpenLayersMap?
    modifies m
    ensures m != null ==> m.State() == old(m.State()).(layers := LayerChange(old(m.layers), visible, invisible))
    ensures m != null ==> m.Valid()
  {
    if m == null {
      return;
    }
    SetFoundVisible(m, visible, true);
    SetFoundVisible(m, invisible, false);
  }

  /** `itsMapOnOff()`: nothing without an engine; otherwise the
      traffic-congestion layer, when found, has its visibility flipped. */
  method ItsMapOnOff(m: MapUtile?)
    requires m != null ==> m.Valid() && m.mapRef.OpenLayersMap?
    modifies m
    ensures m != null ==> m.State() == old(m.State()).(layers := ToggleFound(old(m.layers), TrafficLayerId))
    ensures m != null ==> m.Valid()
  {
    if m == null {
      return;
    }
    var found := m.GetFindLayer("id", Str(TrafficLayerId));
    if found.Some? {
      ghost var s0 := m.State();
      var l := At(m.layers, found.value);
      m.SetLayers(Replace(m.layers, found.value, l.(visible := !l.visible)));
      InvWithSameLookups(s0, m.layers);
    }
  }

  // ---------------------------------------------------------------------
  // Properties

  /** Replacing the layer at `p` by one of the same shape leaves the layer at
      any other path as it was, except that a group holding `p` sees its
      child change; no visibility flag but the one at `p` changes. */
  lemma ReplaceElsewhere(layers: seq<Layer>, p: Path, l: Layer, q: Path)
    requires ValidPath(layers, p) && SameShape(At(layers, p), l)
    requires ValidPath(layers, q) && q != p
    ensures ValidPath(Replace(layers, p, l), q)
    ensures At(Replace(layers, p, l), q).visible == At(layers, q).visible
    ensures !(p.Child? && q == Top(p.i)) ==> At(Replace(layers, p, l), q) == At(layers, q)
  {
    var r := Replace(layers, p, l);
    assert r == Put(layers, p, l);
    if q.i != p.i {
      assert r[q.i] == layers[q.i];
    } else if p.Top? {
      assert r[p.i] == l;
      if q.Child? {
        assert l.kind.children == layers[p.i].kind.children;
      }
    } else if q.Child? {
      assert q.j != p.j;
    }
  }

  /** The layers `getFindLayer` finds under two different ids are two
      different layers. */
  lemma DistinctIdsDistinctPaths(layers: seq<Layer>, a: string, b: string)
    requires a != b && Lookup(layers, a).Some? && Lookup(layers, b).Some?
    ensures Lookup(layers, a).value != Lookup(layers, b).value
  {
    var pa, pb := Lookup(layers, a).value, Lookup(layers, b).value;
    assert Get(At(layers, pa), "id") == Str(a);
    assert Get(At(layers, pb), "id") == Str(b);
  }

  /** Setting the flag of the layer found under `id` changes no other
      layer's flag. */
  lemma SetVisibleElsewhere(layers: seq<Layer>, id: string, v: bool, q: Path)
    requires ValidPath(layers, q) && Some(q) != Lookup(layers, id)
    ensures ValidPath(SetVisibleFound(layers, id, v), q)
    ensures At(SetVisibleFound(layers, id, v), q).visible == At(layers, q).visible
  {
    var p := Lookup(layers, id);
    if p.Some? {
      ReplaceElsewhere(layers, p.value, At(layers, p.value).(visible := v), q);
    }
  }

  /** A base-map button hides the layer found under `invisible`, shows the
      layer found under `visible` unless that is the same id, and leaves
      every other layer's visibility flag as it was; an id that is not found
      is skipped. */
  lemma LayerChangeEffect(layers: seq<Layer>, visible: string, invisible: string)
    ensures var r, pv, pi := LayerChange(layers, visible, invisible), Lookup(layers, visible), Lookup(layers, invisible);
            && |r| == |layers|
            && (forall id :: Lookup(r, id) == Lookup(layers, id))
            && (pi.Some? ==> ValidPath(r, pi.value) && !At(r, pi.value).visible)
            && (pv.Some? && visible != invisible ==> ValidPath(r, pv.value) && At(r, pv.value).visible)
            && (forall q :: ValidPath(layers, q) && Some(q) != pv && Some(q) != pi ==>
                  ValidPath(r, q) && At(r, q).visible == At(layers, q).visible)
  {
    var r1 := SetVisibleFound(layers, visible, true);
    var pv, pi := Lookup(layers, visible), Lookup(layers, invisible);
    assert Lookup(r1, invisible) == pi;
    if pv.Some? && visible != invisible {
      if pi.Some? {
        DistinctIdsDistinctPaths(layers, visible, invisible);
      }
      SetVisibleElsewhere(r1, invisible, false, pv.value);
    }
    forall q | ValidPath(layers, q) && Some(q) != pv && Some(q) != pi
      ensures ValidPath(LayerChange(layers, visible, invisible), q)
      ensures At(LayerChange(layers, visible, invisible), q).visible == At(layers, q).visible
    {
      SetVisibleElsewhere(layers, visible, true, q);
      SetVisibleElsewhere(r1, invisible, false, q);
    }
  }

  /** Putting back the layer that was at `p` undoes a replacement there. */
  lemma PutBack(layers: seq<Layer>, p: Path, l: Layer)
    requires ValidPath(layers, p)
    ensures Put(Put(layers, p, l), p, At(layers, p)) == layers
  {
    var r := Put(Put(layers, p, l), p, At(layers, p));
    assert |r| == |layers|;
    if p.Child? {
      var cs, cs' := layers[p.i].kind.children, r[p.i].kind.children;
      assert |cs'| == |cs|;
      assert forall k :: 0 <= k < |cs| ==> cs'[k] == cs[k];
      assert r[p.i] == layers[p.i];
    }
    assert forall k :: 0 <= k < |r| ==> r[k] == layers[k];
  }

  /** `itsMapOnOff` flips the traffic layer's flag when it is found, leaves
      every other flag alone, and pressing it twice restores the layer list. */
  lemma ToggleFoundEffect(layers: seq<Layer>, id: string)
    ensures var r, p := ToggleFound(layers, id), Lookup(layers, id);
            && (p.None? ==> r == layers)
            && (p.Some? ==> ValidPath(r, p.value) && At(r, p.value).visible == !At(layers, p.value).visible)
            && (forall q :: ValidPath(layers, q) && Some(q) != p ==>
                  ValidPath(r, q) && At(r, q).visible == At(layers, q).visible)
    ensures ToggleFound(ToggleFound(layers, id), id) == layers
  {
    var p := Lookup(layers, id);
    if p.Some? {
      var l := At(layers, p.value);
      var r := ToggleFound(layers, id);
      forall q | ValidPath(layers, q) && Some(q) != p
        ensures ValidPath(r, q) && At(r, q).visible == At(layers, q).visible
      {
        ReplaceElsewhere(layers, p.value, l.(visible := !l.visible), q);
      }
      assert Lookup(r, id) == p;
      assert At(r, p.value).(visible := !At(r, p.value).visible) == l;
      PutBack(layers, p.value, l.(visible := !l.visible));
    }
  }

  /** Both base maps are on the map and exactly one of them is shown. */
  predicate OneBaseMap(layers: seq<Layer>)
  {
    var p2, ps := Lookup(layers, Base2DId), Lookup(layers, SatelliteId);
    && p2.Some? && ps.Some?
    && (At(layers, p2.value).visible <==> !At(layers, ps.value).visible)
  }

  /** The vworld group, added to a map that had no base map, shows exactly
      one base map: the 2D one. */
  lemma VworldGroupShowsOne(layers: seq<Layer>)
    requires Lookup(layers, Base2DId).None? && Lookup(layers, SatelliteId).None?
    ensures OneBaseMap(layers + [VworldTileGroup()])
    ensures At(layers + [VworldTileGroup()], Lookup(layers + [VworldTileGroup()], Base2DId).value).visible
  {
    VworldGroupLookup(layers);
    VworldTileGroupLayout();
  }

  /** Whenever both base maps are on the map, the 2D button leaves exactly
      the 2D map shown and the satellite button exactly the satellite map,
      whatever was shown before. */
  lemma BaseMapButtons(layers: seq<Layer>)
    requires Lookup(layers, Base2DId).Some? && Lookup(layers, SatelliteId).Some?
    ensures var r := LayerChange(layers, Base2DId, SatelliteId);
            OneBaseMap(r) && At(r, Lookup(r, Base2DId).value).visible
    ensures var r := LayerChange(layers, SatelliteId, Base2DId);
            OneBaseMap(r) && At(r, Lookup(r, SatelliteId).value).visible
  {
    LayerChangeEffect(layers, Base2DId, SatelliteId);
    LayerChangeEffect(layers, SatelliteId, Base2DId);
  }

  /** The traffic button never changes which base map is shown. */
  lemma TrafficKeepsBaseMap(layers: seq<Layer>)
    requires OneBaseMap(layers)
    ensures OneBaseMap(ToggleFound(layers, TrafficLayerId))
    ensures var r := ToggleFound(layers, TrafficLayerId);
            At(r, Lookup(r, Base2DId).value).visible == At(layers, Lookup(layers, Base2DId).value).visible
  {
    var pt := Lookup(layers, TrafficLayerId);
    ToggleFoundEffect(layers, TrafficLayerId);
    if pt.Some? {
      DistinctIdsDistinctPaths(layers, TrafficLayerId, Base2DId);
      DistinctIdsDistinctPaths(layers, TrafficLayerId, SatelliteId);
    }
  }

  /** The traffic layer starts hidden; appended to a map without one, the
      first press of the traffic button shows it and the second hides it
      again. */
  lemma TrafficLayerOnOff(layers: seq<Layer>)
    requires Lookup(layers, TrafficLayerId).None?
    ensures var m := layers + [TrafficLayer()];
            && Lookup(m, TrafficLayerId) == Some(Top(|layers|))
            && !At(m, Top(|layers|)).visible
            && At(ToggleFound(m, TrafficLayerId), Top(|layers|)).visible
            && ToggleFound(ToggleFound(m, TrafficLayerId), TrafficLayerId) == m
  {
    var m := layers + [TrafficLayer()];
    assert TopMatches(TrafficLayer(), "id", Str(TrafficLayerId));
    FindLayerAppend(layers, TrafficLayer(), "id", Str(TrafficLayerId));
    ToggleFoundEffect(m, TrafficLayerId);
  }
}
