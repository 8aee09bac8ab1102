/** What each MapUtile operation, and each event the engine listens to, does
    to the engine state: one function per operation or event, each keeping
    the invariant `Inv`. The class in map_utile.dfy is proved against these
    functions, and engine_properties.dfy proves what the source promises
    about them. */
module EngineSpec {
  import opened Wrappers
  import opened Seqs
  import opened MapModel
  import opened MapUtilePure
  import opened EngineModel

  /** `new MapUtile(map)` for an OpenLayers map with the given layers and
      zoom; `firstUid` is the first identity nothing on the map uses yet. */
  function Initial(layers: seq<Layer>, zoom: JsNumber, firstUid: nat): (r: EngineState)
    requires ReservedAreVector(layers)
    ensures Inv(r)
    ensures r.mapRef == OpenLayersMap && r.layers == layers && r.zoom == zoom
    ensures r.coordHandler.None? && r.markerHandler.None? && r.pulseHandler.None?
    ensures r.draw == NoDraw && r.select.None?
  {
    EngineState(OpenLayersMap, zoom, layers, [], [], [], None, None, None, NoDraw, None, map[], firstUid, [], [])
  }

  // ---------------------------------------------------------------------
  // map and zoom setters

  /** The argument of the `map` setter: a built-in JavaScript `Map`, or
      anything else (an OpenLayers map included). */
  datatype MapArg = BuiltinMapArg | OtherMapArg

  /** `set map(map)`: only a built-in `Map` passes the `instanceof Map` test;
      it replaces `#map` and empties the click and pulse slots, but not the
      draw and select slots. */
  function SetMap(s: EngineState, arg: MapArg): (r: EngineState)
    requires Inv(s)
    ensures Inv(r)
    ensures arg.OtherMapArg? ==> r == s
    ensures arg.BuiltinMapArg? ==>
              r == s.(mapRef := BuiltinMap, coordHandler := None, markerHandler := None, pulseHandler := None)
  {
    if arg.BuiltinMapArg? then
      s.(mapRef := BuiltinMap, coordHandler := None, markerHandler := None, pulseHandler := None)
    else s
  }

  /** The argument of the `zoom` setter: a number, or another value together
      with what `Number(value)` makes of it. */
  datatype ZoomArg = NumberArg(n: JsNumber) | OtherZoomArg(asNumber: JsNumber)

  /** The setter reaches the view unless a non-number casts to NaN. */
  predicate ZoomReachesView(arg: ZoomArg)
  {
    !(arg.OtherZoomArg? && arg.asNumber.NaN?)
  }

  /** `set zoom(number)`. */
  function SetZoom(s: EngineState, arg: ZoomArg): (r: EngineState)
    requires Inv(s)
    requires ZoomReachesView(arg) ==> s.mapRef.OpenLayersMap?
    ensures Inv(r)
  {
    match arg
    case NumberArg(n) => s.(zoom := n)
    case OtherZoomArg(x) => if x.NaN? then s else s.(zoom := x)
  }

  // ---------------------------------------------------------------------
  // Click handlers

  /** A new layer list, pulse handler and identity counter keep the
      invariant when the engine's layers stay vector layers, the pulse handler
      and the draw slot find their layers, and no identity is handed out
      twice. */
  lemma InvWithLayers(s: EngineState, layers: seq<Layer>, pulse: Option<nat>, next: nat)
    requires Inv(s) && ReservedAreVector(layers) && s.nextUid <= next
    requires pulse.Some? ==> Lookup(layers, PulseLayerId).Some?
    requires s.draw.DrawActive? ==> Lookup(layers, DrawLayerId).Some?
    ensures Inv(s.(layers := layers, pulseHandler := pulse, nextUid := next))
  {
  }

  /** An interaction registered under the next identity, with the draw slot
      set to `draw`: the invariant holds on when the slot, if occupied, has
      the draw layer on the map. */
  function AddInteraction(s: EngineState, k: InteractionKind, draw: DrawSlot): (r: EngineState)
    requires Inv(s)
    requires draw.DrawActive? ==> Lookup(s.layers, DrawLayerId).Some?
    ensures Inv(r)
  {
    s.(interactions := s.interactions + [Interaction(s.nextUid, k)], nextUid := s.nextUid + 1, draw := draw)
  }

  /** `setClickCoordinate(callback, {once})`. */
  function SetClickCoordinate(s: EngineState, callback: nat, once: bool): (r: EngineState)
    requires Inv(s)
    requires s.coordHandler.None? ==> s.mapRef.OpenLayersMap?
    ensures Inv(r)
  {
    if s.coordHandler.Some? then s
    else
      var h := s.nextUid;
      s.(listeners := s.listeners + [ClickListener(h, CoordinateHandler(callback), once)],
         coordHandler := if once then None else Some(h),
         nextUid := h + 1)
  }

  /** `unsetClickCoordinate()`. */
  function UnsetClickCoordinate(s: EngineState): (r: EngineState)
    requires Inv(s)
    requires s.coordHandler.Some? ==> s.mapRef.OpenLayersMap?
    ensures Inv(r)
  {
    if s.coordHandler.None? then s
    else
      s.(listeners := Drop(s.listeners, ListenerUid, {s.coordHandler.value}), coordHandler := None)
  }

  /** `setClickGenerateMarker(once)`. */
  function SetClickGenerateMarker(s: EngineState, once: bool): (r: EngineState)
    requires Inv(s)
    requires s.markerHandler.None? ==> s.mapRef.OpenLayersMap?
    ensures Inv(r)
  {
    if s.markerHandler.Some? then s
    else
      var h := s.nextUid;
      s.(listeners := s.listeners + [ClickListener(h, MarkerHandler, once)],
         markerHandler := if once then None else Some(h),
         nextUid := h + 1)
  }

  /** `unsetClickGenerateMarker(removeLayerBoolean)`. */
  function UnsetClickGenerateMarker(s: EngineState, removeLayer: bool): (r: EngineState)
    requires Inv(s)
    requires s.markerHandler.Some? ==> s.mapRef.OpenLayersMap?
    ensures Inv(r)
  {
    if s.markerHandler.None? then s
    else
      s.(listeners := Drop(s.listeners, ListenerUid, {s.markerHandler.value}),
         markerHandler := None,
         layers := if removeLayer then RemoveLookedUp(s.layers, MarkerLayerId) else s.layers)
  }

  /** The feature a marker click adds: `createFeature('clickMarker', [lon, lat])`. */
  function MarkerFeature(uid: nat, c: Coord): (f: Feature)
    ensures f.uid == uid && f.name == Str("clickMarker") && f.geometry.kind == PointKind
    ensures f.geometry.coords == List([Scalar(c.lon), Scalar(c.lat)]) && f.style == DefaultMarker()
  {
    CreateFeature(uid, Str("clickMarker"), Some(List([Scalar(c.lon), Scalar(c.lat)])), None, Undefined).value
  }

  /** The layers after `getFindLayer('id', id)`, creating the layer with
      `createVectorLayer(opts)` when the lookup fails, and where the lookup
      now lands. */
  function Ensure(layers: seq<Layer>, id: string, opts: VectorLayerOptions): (r: (seq<Layer>, Path))
    requires opts.id == Str(id) && Reserved(Str(id))
    ensures Lookup(layers, id).Some? ==> r.0 == layers
    ensures Lookup(layers, id).None? ==> r.0 == layers + [NewVectorLayer(opts).value]
    ensures Lookup(r.0, id) == Some(r.1)
    ensures forall id' :: Lookup(layers, id').Some? ==> Lookup(r.0, id') == Lookup(layers, id')
    ensures ReservedAreVector(layers) ==> ReservedAreVector(r.0) && At(r.0, r.1).kind.VectorLayer?
  {
    var layers' := if Lookup(layers, id).Some? then layers else AppendLayer(layers, NewVectorLayer(opts).value);
    var p := Lookup(layers', id).value;
    if ReservedAreVector(layers') then
      FoundIsVector(layers', id);
      (layers', p)
    else (layers', p)
  }

  /** The layers after the marker listener: `clickMarkerLayer` is found, or
      created when it is missing, and gets a marker feature at `c`. The
      engine's own layers stay vector layers and stay findable. */
  function AddMarker(layers: seq<Layer>, uid: nat, c: Coord): (r: seq<Layer>)
    requires ReservedAreVector(layers)
    ensures ReservedAreVector(r)
    ensures Lookup(layers, PulseLayerId).Some? ==> Lookup(r, PulseLayerId) == Lookup(layers, PulseLayerId)
    ensures Lookup(layers, DrawLayerId).Some? ==> Lookup(r, DrawLayerId) == Lookup(layers, DrawLayerId)
  {
    var e := Ensure(layers, MarkerLayerId, IdOptions(MarkerLayerId));
    SetSource(e.0, e.1, AddFeature(At(e.0, e.1).kind.source, MarkerFeature(uid, c)))
  }

  /** The marker listener. */
  function MarkerClick(s: EngineState, c: Coord): (r: EngineState)
    requires Inv(s)
    ensures Inv(r) && r == s.(layers := r.layers, nextUid := r.nextUid)
  {
    var layers := AddMarker(s.layers, s.nextUid, c);
    InvWithLayers(s, layers, s.pulseHandler, s.nextUid + 1);
    s.(layers := layers, pulseHandler := s.pulseHandler, nextUid := s.nextUid + 1)
  }

  /** The callback call one listener makes for a click at `c`: a coordinate
      listener calls its callback with `[lon, lat]`, a marker listener none. */
  function ClickCalls(l: ClickListener, c: Coord): seq<Call>
  {
    if l.handler.CoordinateHandler? then [Call(l.handler.callback, ClickArgs(c))] else []
  }

  /** One listener reacting to a click. A `once` listener is unregistered
      before its handler runs. */
  function Fire(s: EngineState, l: ClickListener, c: Coord): (r: EngineState)
    requires Inv(s)
    ensures Inv(r)
    ensures r.calls == s.calls + ClickCalls(l, c)
  {
    var s1 := if l.once then s.(listeners := Drop(s.listeners, ListenerUid, {l.uid})) else s;
    match l.handler
    case CoordinateHandler(cb) => s1.(calls := s1.calls + [Call(cb, ClickArgs(c))])
    case MarkerHandler => MarkerClick(s1, c)
  }

  /** The listeners `ls` reacting to one click, in registration order. */
  function Dispatch(s: EngineState, ls: seq<ClickListener>, c: Coord): (r: EngineState)
    requires Inv(s)
    ensures Inv(r)
    decreases |ls|
  {
    if ls == [] then s else Dispatch(Fire(s, ls[0], c), ls[1..], c)
  }

  /** One step of a dispatch. */
  lemma DispatchStep(s: EngineState, ls: seq<ClickListener>, c: Coord)
    requires Inv(s) && ls != []
    ensures Dispatch(s, ls, c) == Dispatch(Fire(s, ls[0], c), ls[1..], c)
  {
  }

  /** A click on the map at `c`: every listener registered at that moment
      runs. A marker listener reaches `#map`. */
  function MapClick(s: EngineState, c: Coord): (r: EngineState)
    requires Inv(s)
    requires s.mapRef.OpenLayersMap? || forall k :: 0 <= k < |s.listeners| ==> s.listeners[k].handler.CoordinateHandler?
    ensures Inv(r)
  {
    Dispatch(s, s.listeners, c)
  }

  // ---------------------------------------------------------------------
  // createVectorLayer

  /** `createVectorLayer(opts)`: the new layer goes on top of the map. */
  function CreateVectorLayer(s: EngineState, opts: VectorLayerOptions): (r: Result<EngineState, EngineError>)
    requires Inv(s)
    requires Truthy(opts.id) ==> s.mapRef.OpenLayersMap?
    ensures r.Success? ==> Inv(r.value)
  {
    match NewVectorLayer(opts)
    case Failure(e) => Failure(e)
    case Success(l) => Success(s.(layers := AppendLayer(s.layers, l)))
  }

  // ---------------------------------------------------------------------
  // generatePulse

  function Last<T>(xs: seq<T>): T
    requires xs != []
  {
    xs[|xs| - 1]
  }

  /** The callback list entry for calling `cb` when it is a function. */
  function OnCall(cb: Callback, args: CallArgs): seq<Call>
  {
    if cb.Fn? then [Call(cb.id, args)] else []
  }

  /** `pluseLayer` after the pulse set-up, compared with the layer list
      `before` it: findable, a vector layer whose source has `h` as its last
      `addfeature` listener, and appended with z-index 999 only when it was
      missing. */
  predicate PulseLayerReady(before: seq<Layer>, after: seq<Layer>, h: nat)
  {
    && Lookup(after, PulseLayerId).Some?
    && (var p := Lookup(after, PulseLayerId).value;
        && At(after, p).kind.VectorLayer?
        && At(after, p).kind.source.addFeatureListeners != []
        && Last(At(after, p).kind.source.addFeatureListeners) == h)
    && (Lookup(before, PulseLayerId).None? ==>
          && |after| == |before| + 1
          && Get(after[|before|], "zIndex") == Num(999))
    && (Lookup(before, PulseLayerId).Some? ==> |after| == |before|)
  }

  /** The layers after the first pulse's set-up: `pluseLayer` (z-index 999)
      is created when it is missing, and its source gets the `addfeature`
      listener `h`. */
  function PulseLayers(layers: seq<Layer>, h: nat): (r: seq<Layer>)
    requires ReservedAreVector(layers)
    ensures ReservedAreVector(r) && Lookup(r, PulseLayerId).Some?
    ensures Lookup(layers, DrawLayerId).Some? ==> Lookup(r, DrawLayerId) == Lookup(layers, DrawLayerId)
  {
    var e := Ensure(layers, PulseLayerId, VectorLayerOptions(Str(PulseLayerId), Num(999), None, None));
    Listen(e.0, e.1, h)
  }

  /** The first pulse: the pulse layer is readied with a fresh listener,
      which becomes the pulse handler. */
  function PulseSetup(s: EngineState): (r: EngineState)
    requires Inv(s)
    ensures Inv(r)
  {
    var layers := PulseLayers(s.layers, s.nextUid);
    InvWithLayers(s, layers, Some(s.nextUid), s.nextUid + 1);
    s.(layers := layers, pulseHandler := Some(s.nextUid), nextUid := s.nextUid + 1)
  }

  /** `addFeatureInterval`: one add/remove of the pulse feature now, an
      interval repeating it every `timeout` ms, cleared after
      `timeout * (count - 1)` ms, and the callback called at once. */
  function PulseCycle(s: EngineState, feature: nat, callback: Callback, count: int, timeout: int): (r: EngineState)
    requires Inv(s)
    ensures Inv(r) && r == s.(timers := r.timers, calls := r.calls)
  {
    s.(timers := s.timers + [PulseTimer(feature, timeout, timeout * (count - 1))],
       calls := s.calls + OnCall(callback, NoArgs))
  }

  /** Whether the `geom` argument passes `!geom || geom.length < 2`. */
  predicate PulseCoordinatesOk(geom: Option<seq<real>>)
  {
    geom.Some? && |geom.value| >= 2
  }

  /** `generatePulse(geom, callback, {count, timeout})`. */
  function GeneratePulse(s: EngineState, geom: Option<seq<real>>, callback: Callback, count: int, timeout: int)
    : (r: Result<EngineState, EngineError>)
    requires Inv(s)
    requires PulseCoordinatesOk(geom) ==> s.mapRef.OpenLayersMap?
    ensures r.Success? ==> Inv(r.value)
    ensures r.Success? && s.pulseHandler.None? ==>
              && r.value.layers == PulseSetup(s.(nextUid := s.nextUid + 1)).layers
              && r.value.pulseHandler == Some(s.nextUid + 1)
  {
    if !PulseCoordinatesOk(geom) then Failure(MissingCoordinates)
    else
      var s1 := s.(nextUid := s.nextUid + 1);
      if s.pulseHandler.Some? then Success(PulseCycle(s1, s.nextUid, callback, count, timeout))
      else
        var s2 := PulseSetup(s1);
        Success(PulseCycle(s2, s.nextUid, callback, count, timeout))
  }

  /** `generatePulse` with coordinates is the set-up, when there is no
      pulse handler yet, followed by one cycle, on the state with the pulse
      feature's identity handed out. */
  lemma GeneratePulseIs(s: EngineState, s1: EngineState, s2: EngineState, geom: Option<seq<real>>, callback: Callback,
                        count: int, timeout: int)
    requires Inv(s) && PulseCoordinatesOk(geom) && s.mapRef.OpenLayersMap?
    requires s1 == s.(nextUid := s.nextUid + 1)
    requires s2 == if s.pulseHandler.Some? then s1 else PulseSetup(s1)
    ensures GeneratePulse(s, geom, callback, count, timeout) == Success(PulseCycle(s2, s.nextUid, callback, count, timeout))
  {
  }

  // ---------------------------------------------------------------------
  // Drawing

  /** The part of `drawEventFeature` before its guard: `drawFeatureLayer` is
      found, or created, and restyled with `color`. */
  function PrepareDrawLayer(s: EngineState, color: string): (r: EngineState)
    requires Inv(s)
    ensures Inv(r) && r == s.(layers := r.layers)
    ensures Lookup(r.layers, DrawLayerId).Some?
    ensures |r.layers| == |s.layers| + (if Lookup(s.layers, DrawLayerId).None? then 1 else 0)
  {
    var e := Ensure(s.layers, DrawLayerId, IdOptions(DrawLayerId));
    var layers := Replace(e.0, e.1, At(e.0, e.1).(style := DrawLayerStyle(color)));
    assert Lookup(layers, DrawLayerId).Some?;
    InvWithLayers(s, layers, s.pulseHandler, s.nextUid);
    s.(layers := layers, pulseHandler := s.pulseHandler, nextUid := s.nextUid)
  }

  /** The part of `drawEventFeature` after its guard, on an empty slot: the
      slot takes the normalised type `t` and the snap interaction, then the Draw
      interaction unless the type was not recognised, in which case the Draw
      constructor throws. */
  function StartDrawing(s: EngineState, t: Option<DrawType>, onStart: Callback, onDrawing: Callback,
                        onEnd: Callback): (r: (EngineState, Outcome<EngineError>))
    requires Inv(s) && Lookup(s.layers, DrawLayerId).Some?
    ensures Inv(r.0)
  {
    var snap := s.nextUid;
    var s1 := AddInteraction(s, SnapInteraction, DrawActive(t, snap, None));
    if t.None? then (s1, Fail(InvalidDrawType))
    else
      var mode := ModeOf(t.value);
      var slot := DrawActive(t, snap, Some(DrawSession(s1.nextUid, mode.0, mode.1, onStart, onDrawing, onEnd, None)));
      (AddInteraction(s1, DrawInteraction(mode.0, mode.1), slot), Pass)
  }

  /** `drawEventFeature(type, drawstartCallback, drawingCallback,
      drawendCallback, color)`, and what it throws: an occupied slot stops
      after the layer is prepared. */
  function DrawEventFeature(s: EngineState, typ: DrawTypeArg, onStart: Callback, onDrawing: Callback,
                            onEnd: Callback, color: string): (r: (EngineState, Outcome<EngineError>))
    requires Inv(s) && s.mapRef.OpenLayersMap?
    ensures Inv(r.0)
  {
    var s1 := PrepareDrawLayer(s, color);
    if s1.draw.DrawActive? then (s1, Pass) else StartDrawing(s1, NormalizeDrawType(typ), onStart, onDrawing, onEnd)
  }

  /** The interactions an occupied draw slot holds. */
  function DrawIds(d: DrawSlot): set<nat>
  {
    match d
    case NoDraw => {}
    case DrawActive(_, snap, session) => {snap} + (if session.Some? then {session.value.uid} else {})
  }

  /** The popups of the features of the layer at `p`. */
  function LayerPopups(s: EngineState, p: Path): set<nat>
    requires ValidPath(s.layers, p) && At(s.layers, p).kind.VectorLayer?
  {
    PopupsOf(FeatureUids(At(s.layers, p).kind.source.features), s.popupOf)
  }

  /** The first half of `clearDrawEventFeature(true)`: the popups of the
      draw layer's features leave the map, then the layer itself. */
  function RemoveDrawLayer(s: EngineState): (r: EngineState)
    requires Inv(s) && s.draw.NoDraw? && s.mapRef.OpenLayersMap?
    ensures Inv(r) && r.draw == NoDraw
  {
    var p := Lookup(s.layers, DrawLayerId);
    if p.Some? then
      FoundIsVector(s.layers, DrawLayerId);
      var layers := RemoveLookedUp(s.layers, DrawLayerId);
      InvWithLayers(s, layers, s.pulseHandler, s.nextUid);
      var s1 := s.(layers := layers, pulseHandler := s.pulseHandler, nextUid := s.nextUid);
      s1.(overlays := Drop(s.overlays, OverlayUid, LayerPopups(s, p.value)))
    else s
  }

  /** An occupied draw slot gives up its interactions and empties. */
  function EmptyDrawSlot(s: EngineState): (r: EngineState)
    requires Inv(s)
    ensures Inv(r) && r.draw == NoDraw
  {
    if s.draw.DrawActive? then
      s.(interactions := Drop(s.interactions, InteractionUid, DrawIds(s.draw)), draw := NoDraw)
    else s
  }

  /** `clearDrawEventFeature(removeLayerBoolean)`: with the flag, the popups
      of the draw layer's features and then the layer itself leave the map;
      in any case an occupied draw slot gives up its interactions and
      empties. The two halves touch disjoint parts of the state; the slot is
      emptied first so that the invariant holds in between. */
  function ClearDrawEventFeature(s: EngineState, removeLayer: bool): (r: EngineState)
    requires Inv(s) && s.mapRef.OpenLayersMap?
    ensures Inv(r) && r.draw == NoDraw
  {
    var s1 := EmptyDrawSlot(s);
    if removeLayer then RemoveDrawLayer(s1) else s1
  }

  /** Whether a feature is being sketched. */
  predicate Sketching(s: EngineState)
  {
    s.draw.DrawActive? && s.draw.session.Some? && s.draw.session.value.sketch.Some?
  }

  /** The Draw interaction's `drawstart`: a sketch feature appears, and the
      start callback is called. */
  function DrawStart(s: EngineState, coords: Coords): (r: EngineState)
    requires Inv(s) && s.draw.DrawActive? && s.draw.session.Some? && s.draw.session.value.sketch.None?
    ensures Inv(r)
  {
    var d := s.draw.session.value;
    var f := Feature(s.nextUid, Undefined, Geometry(SketchKind(d.mode, d.geometryFunction), coords), Unstyled);
    s.(draw := s.draw.(session := Some(d.(sketch := Some(f)))),
       nextUid := s.nextUid + 1,
       calls := s.calls + OnCall(d.onStart, DrawStartArgs(f.uid)))
  }

  /** A change of the sketch's geometry: lines and polygons report it to the
      drawing callback. */
  function DrawChange(s: EngineState, coords: Coords): (r: EngineState)
    requires Inv(s) && Sketching(s)
    ensures Inv(r) && Sketching(r) && r.mapRef == s.mapRef
  {
    var d := s.draw.session.value;
    var f := d.sketch.value;
    var f' := f.(geometry := f.geometry.(coords := coords));
    var reported := f.geometry.kind == LineStringKind || f.geometry.kind == PolygonKind;
    s.(draw := s.draw.(session := Some(d.(sketch := Some(f')))),
       calls := s.calls + (if reported then OnCall(d.onDrawing, DrawingArgs(f.uid)) else []))
  }

  /** The Draw interaction's `drawend`: the end callback is called, the
      engine tears the drawing down with `clearDrawEventFeature()`, and the
      library then adds the finished feature to the draw layer's source. */
  function DrawEnd(s: EngineState): (r: EngineState)
    requires Inv(s) && Sketching(s) && s.mapRef.OpenLayersMap?
    ensures Inv(r)
  {
    var d := s.draw.session.value;
    var f := d.sketch.value;
    var s1 := s.(calls := s.calls + OnCall(d.onEnd, DrawEndArgs(f.uid)));
    var s2 := ClearDrawEventFeature(s1, false);
    var p := Lookup(s2.layers, DrawLayerId).value;
    FoundIsVector(s2.layers, DrawLayerId);
    var layers := SetSource(s2.layers, p, AddFeature(At(s2.layers, p).kind.source, f));
    assert s2.pulseHandler.Some? ==> Lookup(layers, PulseLayerId) == Lookup(s2.layers, PulseLayerId);
    InvWithLayers(s2, layers, s2.pulseHandler, s2.nextUid);
    s2.(layers := layers, pulseHandler := s2.pulseHandler, nextUid := s2.nextUid)
  }

  /** `finishDrawing()`: asks the Draw interaction, if there is one, to finish
      its sketch, which ends the drawing when a sketch is under way. In line
      and polygon mode the interaction first drops the point that follows
      the pointer, so the sketch's geometry changes once more, to
      `finalCoords`, before `drawend`; a point or circle sketch ends as it
      is. */
  function FinishDrawing(s: EngineState, finalCoords: Coords): (r: EngineState)
    requires Inv(s)
    requires Sketching(s) ==> s.mapRef.OpenLayersMap?
    ensures Inv(r)
  {
    if !Sketching(s) then s
    else if s.draw.session.value.mode == LineStringMode || s.draw.session.value.mode == PolygonMode
    then DrawEnd(DrawChange(s, finalCoords))
    else DrawEnd(s)
  }

  // ---------------------------------------------------------------------
  // Selection and the map element's key and context-menu handlers

  /** `setSelectDrawFeatureEvent(color)`. */
  function SetSelect(s: EngineState, color: string): (r: EngineState)
    requires Inv(s) && s.mapRef.OpenLayersMap?
    ensures Inv(r)
  {
    if Lookup(s.layers, DrawLayerId).Some? && s.select.None? then
      var h := s.nextUid;
      s.(select := Some(SelectHandler(h, color, [])),
         interactions := s.interactions + [Interaction(h, SelectInteraction)],
         nextUid := h + 1)
    else s
  }

  /** `unsetSelectDrawFeatureEvent()`. */
  function UnsetSelect(s: EngineState): (r: EngineState)
    requires Inv(s)
    requires s.select.Some? ==> s.mapRef.OpenLayersMap?
    ensures Inv(r)
  {
    if s.select.Some? then
      s.(interactions := Drop(s.interactions, InteractionUid, {s.select.value.uid}), select := None)
    else s
  }

  /** The Select interaction's own reaction to a click: its collection now
      holds `selected`. */
  function SelectFeatures(s: EngineState, selected: seq<nat>): (r: EngineState)
    requires Inv(s) && s.select.Some?
    ensures Inv(r)
  {
    s.(select := Some(s.select.value.(selected := selected)))
  }

  /** What the Delete and Backspace keys need: the lookup reaches `#map`, and
      a non-empty selection needs the draw layer. */
  predicate CanDelete(s: EngineState)
  {
    s.select.Some? ==>
      && s.mapRef.OpenLayersMap?
      && (|s.select.value.selected| > 0 ==> Lookup(s.layers, DrawLayerId).Some?)
  }

  /** The draw layer with the features whose identities are in `ids` taken
      out of its source. */
  function RemoveFeatures(layers: seq<Layer>, ids: set<nat>): (r: seq<Layer>)
    requires ReservedAreVector(layers) && Lookup(layers, DrawLayerId).Some?
    ensures ReservedAreVector(r) && forall id :: Lookup(r, id) == Lookup(layers, id)
  {
    WithDrawFeatures(layers, Drop(DrawFeatures(layers), FeatureUid, ids))
  }

  /** The features of the draw layer's source. */
  function DrawFeatures(layers: seq<Layer>): seq<Feature>
    requires ReservedAreVector(layers) && Lookup(layers, DrawLayerId).Some?
  {
    FoundIsVector(layers, DrawLayerId);
    At(layers, Lookup(layers, DrawLayerId).value).kind.source.features
  }

  /** The layers with the draw layer's source holding `fs`. */
  function WithDrawFeatures(layers: seq<Layer>, fs: seq<Feature>): (r: seq<Layer>)
    requires ReservedAreVector(layers) && Lookup(layers, DrawLayerId).Some?
    ensures ReservedAreVector(r) && forall id :: Lookup(r, id) == Lookup(layers, id)
  {
    var p := Lookup(layers, DrawLayerId).value;
    FoundIsVector(layers, DrawLayerId);
    var src := At(layers, p).kind.source;
    SetSource(layers, p, src.(features := fs))
  }

  /** Delete or Backspace: each selected feature leaves the draw layer's
      source and its popup leaves the map; the selection empties. */
  function DeleteSelected(s: EngineState): (r: EngineState)
    requires Inv(s) && CanDelete(s)
    ensures Inv(r)
  {
    if s.select.None? then s
    else
      var sel := s.select.value.selected;
      var layers := if |sel| == 0 then s.layers else RemoveFeatures(s.layers, Elems(sel));
      s.(layers := layers,
         overlays := Drop(s.overlays, OverlayUid, PopupsOf(sel, s.popupOf)),
         select := Some(s.select.value.(selected := [])))
  }

  /** The `keydown` handler of the map element. */
  function KeyDown(s: EngineState, key: string, finalCoords: Coords): (r: EngineState)
    requires Inv(s)
    requires key == "Delete" || key == "Backspace" ==> CanDelete(s)
    requires key == "Escape" && Sketching(s) ==> s.mapRef.OpenLayersMap?
    ensures Inv(r)
  {
    if key == "Delete" || key == "Backspace" then DeleteSelected(s)
    else if key == "Escape" then FinishDrawing(s, finalCoords)
    else s
  }

  /** The `contextmenu` handler of the map element. */
  function ContextMenu(s: EngineState, finalCoords: Coords): (r: EngineState)
    requires Inv(s)
    requires Sketching(s) ==> s.mapRef.OpenLayersMap?
    ensures Inv(r)
  {
    FinishDrawing(s, finalCoords)
  }

  // ---------------------------------------------------------------------
  // Popups

  /** `createOverlay([lon, lat], feature, type)`: a popup with the default
      rows of `createModal(type, [])` at the coordinate, linked from the
      feature when one is given; returns the popup. */
  function CreateOverlay(s: EngineState, at: Coord, feature: Option<nat>, typ: Value): (r: (EngineState, nat))
    requires Inv(s) && s.mapRef.OpenLayersMap?
    ensures Inv(r.0)
  {
    var h := s.nextUid;
    var rows := ModalRows(if typ == Undefined then Str("LineString") else typ, []);
    (s.(overlays := s.overlays + [Overlay(h, at, 2, 2, rows, feature)],
        popupOf := if feature.Some? then s.popupOf[feature.value := h] else s.popupOf,
        nextUid := h + 1),
     h)
  }

  /** The overlays with the one whose identity is `uid` moved to `at`. */
  function MovedTo(os: seq<Overlay>, uid: nat, at: Coord): (r: seq<Overlay>)
    ensures |r| == |os|
    ensures forall k :: 0 <= k < |os| ==> r[k] == if os[k].uid == uid then os[k].(position := at) else os[k]
  {
    seq(|os|, k requires 0 <= k < |os| => if os[k].uid == uid then os[k].(position := at) else os[k])
  }

  /** `moveOverlay(overlay, [lon, lat])`. */
  function MoveOverlay(s: EngineState, overlay: Option<nat>, at: Coord): (r: EngineState)
    requires Inv(s)
    ensures Inv(r)
  {
    if overlay.None? then s else s.(overlays := MovedTo(s.overlays, overlay.value, at))
  }

  /** The popup's delete button: the popup leaves the map, and its feature
      leaves the draw layer's source when both exist. */
  function DeletePopup(s: EngineState, o: Overlay): (r: EngineState)
    requires Inv(s) && s.mapRef.OpenLayersMap? && o in s.overlays
    ensures Inv(r)
  {
    var s1 := s.(overlays := Drop(s.overlays, OverlayUid, {o.uid}));
    if Lookup(s.layers, DrawLayerId).Some? && o.feature.Some? then
      var layers := RemoveFeatures(s.layers, {o.feature.value});
      assert Lookup(layers, PulseLayerId) == Lookup(s.layers, PulseLayerId);
      assert Lookup(layers, DrawLayerId) == Lookup(s.layers, DrawLayerId);
      InvWithLayers(s1, layers, s1.pulseHandler, s1.nextUid);
      s1.(layers := layers, pulseHandler := s1.pulseHandler, nextUid := s1.nextUid)
    else s1
  }
}
