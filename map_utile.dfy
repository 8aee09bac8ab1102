/** The `MapUtile` class: the engine's state lives in fields that its
    methods update in place, as the JavaScript class does with its private
    slots and the OpenLayers map it drives. Each method is proved to take the
    state `State()` exactly where the matching function of EngineSpec takes
    it, so everything proved in EngineProperties holds of the class. */
module MapUtileEngine {
  import opened Wrappers
  import opened Seqs
  import opened MapModel
  import opened MapUtilePure
  import opened EngineModel
  import opened EngineSpec

  class MapUtile {
    /** `#map` and the parts of it the engine changes: the view's zoom, the
        layer list, the overlays, the interactions and the click listeners. */
    var mapRef: MapRef
    var zoom: JsNumber
    var layers: seq<Layer>
    var overlays: seq<Overlay>
    var interactions: seq<Interaction>
    var listeners: seq<ClickListener>
    /** `#mapClickCoordHandler`, `#mapClickMarkerHandler`, `#mapPulseHandler`,
        `#mapDrawFeatureHandler` and `#mapSelectDrawFeatureHandler`. */
    var coordHandler: Option<nat>
    var markerHandler: Option<nat>
    var pulseHandler: Option<nat>
    var draw: DrawSlot
    var select: Option<SelectHandler>
    /** `feature.popup` for every feature that has one. */
    var popupOf: map<nat, nat>
    /** The next identity the engine hands out. */
    var nextUid: nat
    /** The callbacks called so far, and the pulse timers set. */
    var calls: seq<Call>
    var timers: seq<PulseTimer>

    function State(): EngineState
      reads this
    {
      EngineState(mapRef, zoom, layers, overlays, interactions, listeners, coordHandler, markerHandler,
                  pulseHandler, draw, select, popupOf, nextUid, calls, timers)
    }

    predicate Valid()
      reads this
    {
      Inv(State())
    }

    /** `new MapUtile(map)`: every slot is empty. The key and context-menu
        handlers it installs on the map element are the methods `KeyDown` and
        `ContextMenu`. */
    constructor (initialLayers: seq<Layer>, initialZoom: JsNumber, firstUid: nat)
      requires ReservedAreVector(initialLayers)
      ensures Valid() && State() == Initial(initialLayers, initialZoom, firstUid)
    {
      mapRef := OpenLayersMap;
      zoom := initialZoom;
      layers := initialLayers;
      overlays := [];
      interactions := [];
      listeners := [];
      coordHandler := None;
      markerHandler := None;
      pulseHandler := None;
      draw := NoDraw;
      select := None;
      popupOf := map[];
      nextUid := firstUid;
      calls := [];
      timers := [];
    }

    /** A fresh identity for a new listener, interaction, overlay or
        feature. */
    method NewUid() returns (u: nat)
      modifies this
      ensures u == old(nextUid) && nextUid == u + 1
      ensures State() == old(State()).(nextUid := u + 1)
    {
      u := nextUid;
      nextUid := nextUid + 1;
    }

    /** The map's layer list becomes `l`. */
    method SetLayers(l: seq<Layer>)
      modifies this
      ensures State() == old(State()).(layers := l)
    {
      layers := l;
    }

    /** `getFindLayer(key, value)`: where the layer it returns sits, or
        `None` for `undefined`. */
    method GetFindLayer(key: string, value: Value) returns (r: Option<Path>)
      requires mapRef.OpenLayersMap?
      ensures r == FindLayer(layers, key, value)
    {
      r := FindLayer(layers, key, value);
    }

    // -------------------------------------------------------------------
    // map and zoom setters

    /** `set map(map)`. */
    method SetMap(arg: MapArg)
      requires Valid()
      modifies this
      ensures State() == EngineSpec.SetMap(old(State()), arg)
      ensures Valid()
    {
      if arg.BuiltinMapArg? {
        mapRef := BuiltinMap;
        coordHandler := None;
        markerHandler := None;
        pulseHandler := None;
      }
    }

    /** `set zoom(number)`. */
    method SetZoom(arg: ZoomArg)
      requires Valid() && (ZoomReachesView(arg) ==> mapRef.OpenLayersMap?)
      modifies this
      ensures State() == EngineSpec.SetZoom(old(State()), arg)
      ensures Valid()
    {
      match arg
      case NumberArg(n) =>
        zoom := n;
      case OtherZoomArg(casting) =>
        if !casting.NaN? {
          zoom := casting;
        }
    }

    // -------------------------------------------------------------------
    // Click handlers

    /** `setClickCoordinate(callback, {once})`. */
    method SetClickCoordinate(callback: nat, once: bool)
      requires Valid() && (coordHandler.None? ==> mapRef.OpenLayersMap?)
      modifies this
      ensures State() == EngineSpec.SetClickCoordinate(old(State()), callback, once)
      ensures Valid()
    {
      if coordHandler.Some? {
        return;
      }
      var h := NewUid();
      coordHandler := Some(h);
      listeners := listeners + [ClickListener(h, CoordinateHandler(callback), once)];
      if once {
        coordHandler := None;
      }
    }

    /** `unsetClickCoordinate()`. */
    method UnsetClickCoordinate()
      requires Valid() && (coordHandler.Some? ==> mapRef.OpenLayersMap?)
      modifies this
      ensures State() == EngineSpec.UnsetClickCoordinate(old(State()))
      ensures Valid()
    {
      if coordHandler.None? {
        return;
      }
      listeners := Drop(listeners, ListenerUid, {coordHandler.value});
      coordHandler := None;
    }

    /** `setClickGenerateMarker(once)`. */
    method SetClickGenerateMarker(once: bool)
      requires Valid() && (markerHandler.None? ==> mapRef.OpenLayersMap?)
      modifies this
      ensures State() == EngineSpec.SetClickGenerateMarker(old(State()), once)
      ensures Valid()
    {
      if markerHandler.Some? {
        return;
      }
      var h := NewUid();
      markerHandler := Some(h);
      listeners := listeners + [ClickListener(h, MarkerHandler, once)];
      if once {
        markerHandler := None;
      }
    }

    /** `unsetClickGenerateMarker(removeLayerBoolean)`. */
    method UnsetClickGenerateMarker(removeLayer: bool)
      requires Valid() && (markerHandler.Some? ==> mapRef.OpenLayersMap?)
      modifies this
      ensures State() == EngineSpec.UnsetClickGenerateMarker(old(State()), removeLayer)
      ensures Valid()
    {
      if markerHandler.None? {
        return;
      }
      listeners := Drop(listeners, ListenerUid, {markerHandler.value});
      markerHandler := None;
      if removeLayer {
        SetLayers(RemoveLookedUp(layers, MarkerLayerId));
      }
    }

    /** The marker listener's body. */
    method MarkerClick(c: Coord)
      requires Valid()
      modifies this
      ensures State() == EngineSpec.MarkerClick(old(State()), c)
      ensures Valid()
    {
      var u := NewUid();
      SetLayers(AddMarker(layers, u, c));
    }

    /** One listener reacting to a click. */
    method Fire(l: ClickListener, c: Coord)
      requires Valid()
      modifies this
      ensures State() == EngineSpec.Fire(old(State()), l, c)
      ensures Valid()
    {
      if l.once {
        listeners := Drop(listeners, ListenerUid, {l.uid});
      }
      match l.handler
      case CoordinateHandler(cb) =>
        calls := calls + [Call(cb, ClickArgs(c))];
      case MarkerHandler =>
        MarkerClick(c);
    }

    /** A click on the map: every listener registered when the click happens
        runs, in registration order. */
    method MapClick(c: Coord)
      requires Valid()
      requires mapRef.OpenLayersMap? || forall k :: 0 <= k < |listeners| ==> listeners[k].handler.CoordinateHandler?
      modifies this
      ensures State() == EngineSpec.MapClick(old(State()), c)
      ensures Valid()
    {
      var ls := listeners;
      for i := 0 to |ls|
        invariant Valid()
        invariant Dispatch(State(), ls[i..], c) == EngineSpec.Dispatch(old(State()), ls, c)
      {
        DispatchStep(State(), ls[i..], c);
        assert ls[i..][1..] == ls[i + 1..];
        Fire(ls[i], c);
      }
      assert ls[|ls|..] == [];
    }

    // -------------------------------------------------------------------
    // createVectorLayer

    /** `createVectorLayer(opts)`: returns the new layer, or throws for a
        falsy id. */
    method CreateVectorLayer(opts: VectorLayerOptions) returns (r: Result<Layer, EngineError>)
      requires Valid() && (Truthy(opts.id) ==> mapRef.OpenLayersMap?)
      modifies this
      ensures r == NewVectorLayer(opts)
      ensures r.Success? ==> State() == EngineSpec.CreateVectorLayer(old(State()), opts).value
      ensures r.Failure? ==> State() == old(State()) && EngineSpec.CreateVectorLayer(old(State()), opts) == Failure(r.error)
      ensures Valid()
    {
      r := NewVectorLayer(opts);
      if r.Success? {
        SetLayers(AppendLayer(layers, r.value));
      }
    }

    // -------------------------------------------------------------------
    // generatePulse

    /** The first pulse's set-up: `pluseLayer` is found or created, and the
        `addfeature` listener goes on its source. */
    method PulseSetup()
      requires Valid()
      modifies this
      ensures State() == EngineSpec.PulseSetup(old(State()))
      ensures Valid()
    {
      var h := NewUid();
      pulseHandler := Some(h);
      SetLayers(PulseLayers(layers, h));
    }

    /** `generatePulse(geom, callback, {count, timeout})`: throws without two
        coordinates; otherwise the pulse feature is made, the layer and
        listener are set up on the first pulse, and the timers start. */
    method GeneratePulse(geom: Option<seq<real>>, callback: Callback, count: int, timeout: int)
      returns (r: Outcome<EngineError>)
      requires Valid() && (PulseCoordinatesOk(geom) ==> mapRef.OpenLayersMap?)
      modifies this
      ensures r.Fail? ==> && r == Fail(MissingCoordinates) && State() == old(State())
                          && EngineSpec.GeneratePulse(old(State()), geom, callback, count, timeout) == Failure(r.error)
      ensures r.Pass? ==> && EngineSpec.GeneratePulse(old(State()), geom, callback, count, timeout).Success?
                          && State() == EngineSpec.GeneratePulse(old(State()), geom, callback, count, timeout).value
      ensures Valid()
    {
      if !PulseCoordinatesOk(geom) {
        return Fail(MissingCoordinates);
      }
      ghost var s0 := State();
      var feature := NewUid();
      ghost var s1 := State();
      if pulseHandler.None? {
        PulseSetup();
      }
      GeneratePulseIs(s0, s1, State(), geom, callback, count, timeout);
      PulseCycle(feature, callback, count, timeout);
      return Pass;
    }

    /** `addFeatureInterval`: the pulse feature's repeating timer starts, and
        the callback is called. */
    method PulseCycle(feature: nat, callback: Callback, count: int, timeout: int)
      requires Valid()
      modifies this
      ensures State() == EngineSpec.PulseCycle(old(State()), feature, callback, count, timeout)
      ensures Valid()
    {
      timers := timers + [PulseTimer(feature, timeout, timeout * (count - 1))];
      calls := calls + OnCall(callback, NoArgs);
    }

    // -------------------------------------------------------------------
    // Drawing

    /** `drawFeatureLayer` is found or created, and restyled. */
    method PrepareDrawLayer(color: string)
      requires Valid()
      modifies this
      ensures State() == EngineSpec.PrepareDrawLayer(old(State()), color)
      ensures Valid()
    {
      var e := Ensure(layers, DrawLayerId, IdOptions(DrawLayerId));
      SetLayers(Replace(e.0, e.1, At(e.0, e.1).(style := DrawLayerStyle(color))));
    }

    /** `map.addInteraction(...)` under the next identity, with the draw slot
        set to `slot`. */
    method Register(k: InteractionKind, slot: DrawSlot)
      requires Valid() && (slot.DrawActive? ==> Lookup(layers, DrawLayerId).Some?)
      modifies this
      ensures State() == AddInteraction(old(State()), k, slot)
      ensures Valid()
    {
      interactions := interactions + [Interaction(nextUid, k)];
      nextUid := nextUid + 1;
      draw := slot;
    }

    /** The snap interaction, then the Draw interaction for a recognised
        type `t`, the normalised type argument. */
    method StartDrawing(t: Option<DrawType>, onStart: Callback, onDrawing: Callback, onEnd: Callback)
      returns (r: Outcome<EngineError>)
      requires Valid() && Lookup(layers, DrawLayerId).Some?
      modifies this
      ensures State() == EngineSpec.StartDrawing(old(State()), t, onStart, onDrawing, onEnd).0
      ensures r == EngineSpec.StartDrawing(old(State()), t, onStart, onDrawing, onEnd).1
      ensures Valid()
    {
      var snap := nextUid;
      Register(SnapInteraction, DrawActive(t, snap, None));
      if t.None? {
        return Fail(InvalidDrawType);
      }
      var mode := ModeOf(t.value);
      var d := nextUid;
      Register(DrawInteraction(mode.0, mode.1),
               DrawActive(t, snap, Some(DrawSession(d, mode.0, mode.1, onStart, onDrawing, onEnd, None))));
      return Pass;
    }

    /** `drawEventFeature(type, drawstartCallback, drawingCallback,
        drawendCallback, color)`. */
    method DrawEventFeature(typ: DrawTypeArg, onStart: Callback, onDrawing: Callback, onEnd: Callback, color: string)
      returns (r: Outcome<EngineError>)
      requires Valid() && mapRef.OpenLayersMap?
      modifies this
      ensures State() == EngineSpec.DrawEventFeature(old(State()), typ, onStart, onDrawing, onEnd, color).0
      ensures r == EngineSpec.DrawEventFeature(old(State()), typ, onStart, onDrawing, onEnd, color).1
      ensures Valid()
    {
      PrepareDrawLayer(color);
      if draw.DrawActive? {
        return Pass;
      }
      r := StartDrawing(NormalizeDrawType(typ), onStart, onDrawing, onEnd);
    }

    /** The popups of the draw layer's features leave the map, one feature
        at a time, then the layer itself. */
    method RemoveDrawLayer()
      requires Valid() && draw.NoDraw? && mapRef.OpenLayersMap?
      modifies this
      ensures State() == EngineSpec.RemoveDrawLayer(old(State()))
      ensures Valid()
    {
      var p := Lookup(layers, DrawLayerId);
      if p.None? {
        return;
      }
      FoundIsVector(layers, DrawLayerId);
      overlays := RemovePopups(overlays, FeatureUids(At(layers, p.value).kind.source.features), popupOf);
      SetLayers(RemoveLookedUp(layers, DrawLayerId));
    }

    /** An occupied draw slot gives its interactions back and empties. */
    method EmptyDrawSlot()
      requires Valid()
      modifies this
      ensures State() == EngineSpec.EmptyDrawSlot(old(State()))
      ensures Valid()
    {
      if draw.DrawActive? {
        interactions := Drop(interactions, InteractionUid, DrawIds(draw));
        draw := NoDraw;
      }
    }

    /** `clearDrawEventFeature(removeLayerBoolean)`. */
    method ClearDrawEventFeature(removeLayer: bool)
      requires Valid() && mapRef.OpenLayersMap?
      modifies this
      ensures State() == EngineSpec.ClearDrawEventFeature(old(State()), removeLayer)
      ensures Valid()
    {
      EmptyDrawSlot();
      if removeLayer {
        RemoveDrawLayer();
      }
    }

    /** `drawstart`. */
    method DrawStart(coords: Coords)
      requires Valid() && draw.DrawActive? && draw.session.Some? && draw.session.value.sketch.None?
      modifies this
      ensures State() == EngineSpec.DrawStart(old(State()), coords)
      ensures Valid()
    {
      var d := draw.session.value;
      var u := NewUid();
      var f := Feature(u, Undefined, Geometry(SketchKind(d.mode, d.geometryFunction), coords), Unstyled);
      draw := draw.(session := Some(d.(sketch := Some(f))));
      calls := calls + OnCall(d.onStart, DrawStartArgs(f.uid));
    }

    /** The sketch's geometry changes. */
    method DrawChange(coords: Coords)
      requires Valid() && Sketching(State())
      modifies this
      ensures State() == EngineSpec.DrawChange(old(State()), coords)
      ensures Valid()
    {
      var d := draw.session.value;
      var f := d.sketch.value;
      draw := draw.(session := Some(d.(sketch := Some(f.(geometry := f.geometry.(coords := coords))))));
      if f.geometry.kind == LineStringKind || f.geometry.kind == PolygonKind {
        calls := calls + OnCall(d.onDrawing, DrawingArgs(f.uid));
      }
    }

    /** `drawend`: the end callback, the tear-down, and the finished
        feature added to the draw layer. */
    method DrawEnd()
      requires Valid() && Sketching(State()) && mapRef.OpenLayersMap?
      modifies this
      ensures State() == EngineSpec.DrawEnd(old(State()))
      ensures Valid()
    {
      var d := draw.session.value;
      var f := d.sketch.value;
      calls := calls + OnCall(d.onEnd, DrawEndArgs(f.uid));
      ClearDrawEventFeature(false);
      var p := Lookup(layers, DrawLayerId).value;
      FoundIsVector(layers, DrawLayerId);
      SetLayers(SetSource(layers, p, AddFeature(At(layers, p).kind.source, f)));
    }

    /** `finishDrawing()`; `finalCoords` is the line or polygon sketch
        without the point that follows the pointer. */
    method FinishDrawing(finalCoords: Coords)
      requires Valid() && (Sketching(State()) ==> mapRef.OpenLayersMap?)
      modifies this
      ensures State() == EngineSpec.FinishDrawing(old(State()), finalCoords)
      ensures Valid()
    {
      if Sketching(State()) {
        var mode := draw.session.value.mode;
        if mode == LineStringMode || mode == PolygonMode {
          DrawChange(finalCoords);
        }
        DrawEnd();
      }
    }

    // -------------------------------------------------------------------
    // Selection, keys and the context menu

    /** `setSelectDrawFeatureEvent(color)`. */
    method SetSelect(color: string)
      requires Valid() && mapRef.OpenLayersMap?
      modifies this
      ensures State() == EngineSpec.SetSelect(old(State()), color)
      ensures Valid()
    {
      if Lookup(layers, DrawLayerId).Some? && select.None? {
        var h := NewUid();
        select := Some(SelectHandler(h, color, []));
        interactions := interactions + [Interaction(h, SelectInteraction)];
      }
    }

    /** `unsetSelectDrawFeatureEvent()`. */
    method UnsetSelect()
      requires Valid() && (select.Some? ==> mapRef.OpenLayersMap?)
      modifies this
      ensures State() == EngineSpec.UnsetSelect(old(State()))
      ensures Valid()
    {
      if select.Some? {
        interactions := Drop(interactions, InteractionUid, {select.value.uid});
        select := None;
      }
    }

    /** The Select interaction's collection now holds `selected`. */
    method SelectFeatures(selected: seq<nat>)
      requires Valid() && select.Some?
      modifies this
      ensures State() == EngineSpec.SelectFeatures(old(State()), selected)
      ensures Valid()
    {
      select := Some(select.value.(selected := selected));
    }

    /** Delete or Backspace: each selected feature leaves the draw layer's
        source and its popup leaves the map, one at a time; then the
        selection is cleared. */
    method DeleteSelected()
      requires Valid() && CanDelete(State())
      modifies this
      ensures State() == EngineSpec.DeleteSelected(old(State()))
      ensures Valid()
    {
      if select.None? {
        return;
      }
      var sel := select.value.selected;
      if |sel| == 0 {
        DropNothing(overlays, OverlayUid, PopupsOf(sel, popupOf));
        select := Some(select.value.(selected := []));
        return;
      }
      ghost var s0 := State();
      var features, os := RemoveSelected(DrawFeatures(layers), overlays, sel, popupOf);
      overlays := os;
      select := Some(select.value.(selected := []));
      assert State() == s0.(overlays := os, select := select);
      SetLayers(WithDrawFeatures(layers, features));
    }

    /** The map element's `keydown` handler. */
    method KeyDown(key: string, finalCoords: Coords)
      requires Valid()
      requires key == "Delete" || key == "Backspace" ==> CanDelete(State())
      requires key == "Escape" && Sketching(State()) ==> mapRef.OpenLayersMap?
      modifies this
      ensures State() == EngineSpec.KeyDown(old(State()), key, finalCoords)
      ensures Valid()
    {
      if key == "Delete" || key == "Backspace" {
        DeleteSelected();
      } else if key == "Escape" {
        FinishDrawing(finalCoords);
      }
    }

    /** The map element's `contextmenu` handler. */
    method ContextMenu(finalCoords: Coords)
      requires Valid() && (Sketching(State()) ==> mapRef.OpenLayersMap?)
      modifies this
      ensures State() == EngineSpec.ContextMenu(old(State()), finalCoords)
      ensures Valid()
    {
      FinishDrawing(finalCoords);
    }

    // -------------------------------------------------------------------
    // Popups

    /** `createOverlay([lon, lat], feature, type)`: returns the popup. */
    method CreateOverlay(at: Coord, feature: Option<nat>, typ: Value) returns (o: nat)
      requires Valid() && mapRef.OpenLayersMap?
      modifies this
      ensures State() == EngineSpec.CreateOverlay(old(State()), at, feature, typ).0
      ensures o == EngineSpec.CreateOverlay(old(State()), at, feature, typ).1
      ensures Valid()
    {
      var rows := ModalRows(if typ == Undefined then Str("LineString") else typ, []);
      o := NewUid();
      if feature.Some? {
        popupOf := popupOf[feature.value := o];
      }
      overlays := overlays + [Overlay(o, at, 2, 2, rows, feature)];
    }

    /** `moveOverlay(overlay, [lon, lat])`. */
    method MoveOverlay(overlay: Option<nat>, at: Coord)
      requires Valid()
      modifies this
      ensures State() == EngineSpec.MoveOverlay(old(State()), overlay, at)
      ensures Valid()
    {
      if overlay.None? {
        return;
      }
      overlays := MovedTo(overlays, overlay.value, at);
    }

    /** The popup's delete button. */
    method DeletePopup(o: Overlay)
      requires Valid() && mapRef.OpenLayersMap? && o in overlays
      modifies this
      ensures State() == EngineSpec.DeletePopup(old(State()), o)
      ensures Valid()
    {
      overlays := Drop(overlays, OverlayUid, {o.uid});
      if Lookup(layers, DrawLayerId).Some? && o.feature.Some? {
        SetLayers(RemoveFeatures(layers, {o.feature.value}));
      }
    }
  }

  /** `features.forEach(v => v?.popup && map.removeOverlay(v.popup))`: the
      popups of the features `uids` leave the overlays, one at a time. */
  method RemovePopups(overlays: seq<Overlay>, uids: seq<nat>, popupOf: map<nat, nat>) returns (os: seq<Overlay>)
    ensures os == Drop(overlays, OverlayUid, PopupsOf(uids, popupOf))
  {
    os := overlays;
    DropNone(overlays, uids, popupOf);
    for i := 0 to |uids|
      invariant os == Drop(overlays, OverlayUid, PopupsOf(uids[..i], popupOf))
    {
      PopupsStep(uids, i, popupOf);
      if uids[i] in popupOf {
        DropTwice(overlays, OverlayUid, PopupsOf(uids[..i], popupOf), {popupOf[uids[i]]});
        os := Drop(os, OverlayUid, {popupOf[uids[i]]});
      } else {
        assert PopupsOf(uids[..i + 1], popupOf) == PopupsOf(uids[..i], popupOf);
      }
    }
    assert uids[..|uids|] == uids;
  }

  /** The Delete key's loop over the selection: each selected feature leaves
      the source's features and its popup, if any, leaves the overlays. */
  method RemoveSelected(features: seq<Feature>, overlays: seq<Overlay>, sel: seq<nat>, popupOf: map<nat, nat>)
    returns (fs: seq<Feature>, os: seq<Overlay>)
    ensures fs == Drop(features, FeatureUid, Elems(sel))
    ensures os == Drop(overlays, OverlayUid, PopupsOf(sel, popupOf))
  {
    fs, os := features, overlays;
    DropNone(overlays, sel, popupOf);
    assert Elems(sel[..0]) == {};
    DropNothing(features, FeatureUid, {});
    for k := 0 to |sel|
      invariant fs == Drop(features, FeatureUid, Elems(sel[..k]))
      invariant os == Drop(overlays, OverlayUid, PopupsOf(sel[..k], popupOf))
    {
      ElemsStep(sel, k);
      DropTwice(features, FeatureUid, Elems(sel[..k]), {sel[k]});
      fs := Drop(fs, FeatureUid, {sel[k]});
      PopupsStep(sel, k, popupOf);
      if sel[k] in popupOf {
        DropTwice(overlays, OverlayUid, PopupsOf(sel[..k], popupOf), {popupOf[sel[k]]});
        os := Drop(os, OverlayUid, {popupOf[sel[k]]});
      } else {
        assert PopupsOf(sel[..k + 1], popupOf) == PopupsOf(sel[..k], popupOf);
      }
    }
    assert sel[..|sel|] == sel;
  }

  /** Before a loop over features, no popup has been removed. */
  lemma DropNone(os: seq<Overlay>, uids: seq<nat>, popupOf: map<nat, nat>)
    ensures Drop(os, OverlayUid, PopupsOf(uids[..0], popupOf)) == os
  {
    assert PopupsOf(uids[..0], popupOf) == {};
    DropNothing(os, OverlayUid, {});
  }

  /** One more feature in a loop over features adds its popup, if any. */
  lemma PopupsStep(uids: seq<nat>, i: nat, popupOf: map<nat, nat>)
    requires i < |uids|
    ensures PopupsOf(uids[..i + 1], popupOf) ==
            PopupsOf(uids[..i], popupOf) + (if uids[i] in popupOf then {popupOf[uids[i]]} else {})
  {
    assert uids[..i + 1] == uids[..i] + [uids[i]];
    PopupsOfSnoc(uids[..i], uids[i], popupOf);
  }

  /** One more selected feature in the delete loop adds its identity. */
  lemma ElemsStep(xs: seq<nat>, i: nat)
    requires i < |xs|
    ensures Elems(xs[..i + 1]) == Elems(xs[..i]) + {xs[i]}
  {
    assert xs[..i + 1] == xs[..i] + [xs[i]];
    ElemsSnoc(xs[..i], xs[i]);
  }
}
