/** What the map engine promises about its operations, stated over the
    functions of EngineSpec: slots that never hold two handlers, set/unset
    round trips, `once` listeners that fire once, layer creation that fails
    fast, one draw session at a time, and select-then-Delete. */
module EngineProperties {
  import opened Wrappers
  import opened Seqs
  import opened MapModel
  import opened MapUtilePure
  import opened EngineModel
  import opened EngineSpec

  // ---------------------------------------------------------------------
  // Click-handler slots

  /** While the coordinate slot is occupied, `setClickCoordinate` does
      nothing; on an empty slot it registers one listener under a fresh
      identity, and the slot keeps it unless `once` is set. */
  lemma SetClickCoordinateSlot(s: EngineState, callback: nat, once: bool)
    requires Inv(s) && (s.coordHandler.None? ==> s.mapRef.OpenLayersMap?)
    ensures var r := SetClickCoordinate(s, callback, once);
            && (s.coordHandler.Some? ==> r == s)
            && (s.coordHandler.None? ==>
                  && r.listeners == s.listeners + [ClickListener(s.nextUid, CoordinateHandler(callback), once)]
                  && (forall k :: 0 <= k < |s.listeners| ==> s.listeners[k].uid != s.nextUid)
                  && r.coordHandler == (if once then None else Some(s.nextUid))
                  && r.layers == s.layers && r.markerHandler == s.markerHandler && r.calls == s.calls)
  {
  }

  /** A second `setClickCoordinate` after a lasting one registers nothing. */
  lemma SetClickCoordinateTwice(s: EngineState, c1: nat, c2: nat, once: bool)
    requires Inv(s) && s.mapRef.OpenLayersMap?
    ensures var s1 := SetClickCoordinate(s, c1, false);
            SetClickCoordinate(s1, c2, once) == s1
  {
  }

  /** Registering a lasting coordinate handler and unregistering it again
      leaves the engine as it was, but for the identity it used up. */
  lemma SetUnsetClickCoordinate(s: EngineState, callback: nat)
    requires Inv(s) && s.mapRef.OpenLayersMap? && s.coordHandler.None?
    ensures UnsetClickCoordinate(SetClickCoordinate(s, callback, false)) == s.(nextUid := s.nextUid + 1)
  {
    var l := ClickListener(s.nextUid, CoordinateHandler(callback), false);
    var s1 := SetClickCoordinate(s, callback, false);
    assert s1 == s.(listeners := s.listeners + [l], coordHandler := Some(s.nextUid), nextUid := s.nextUid + 1);
    DropAppend(s.listeners, [l], ListenerUid, {s.nextUid});
    DropNothing(s.listeners, ListenerUid, {s.nextUid});
    assert Drop([l], ListenerUid, {s.nextUid}) == [];
    assert Drop(s1.listeners, ListenerUid, {s.nextUid}) == s.listeners;
  }

  /** `unsetClickCoordinate` on an empty slot does nothing, and a second call
      does nothing more than the first. */
  lemma UnsetClickCoordinateIdempotent(s: EngineState)
    requires Inv(s) && s.mapRef.OpenLayersMap?
    ensures s.coordHandler.None? ==> UnsetClickCoordinate(s) == s
    ensures UnsetClickCoordinate(UnsetClickCoordinate(s)) == UnsetClickCoordinate(s)
  {
  }

  /** An occupied coordinate slot is emptied and its listener unregistered. */
  lemma UnsetClickCoordinateRemoves(s: EngineState)
    requires Inv(s) && s.mapRef.OpenLayersMap? && s.coordHandler.Some?
    ensures var r := UnsetClickCoordinate(s);
            && r.coordHandler.None?
            && (forall l :: l in r.listeners <==> l in s.listeners && l.uid != s.coordHandler.value)
  {
  }

  /** `setClickGenerateMarker` follows the same slot discipline. */
  lemma SetClickGenerateMarkerSlot(s: EngineState, once: bool)
    requires Inv(s) && (s.markerHandler.None? ==> s.mapRef.OpenLayersMap?)
    ensures var r := SetClickGenerateMarker(s, once);
            && (s.markerHandler.Some? ==> r == s)
            && (s.markerHandler.None? ==>
                  && r.listeners == s.listeners + [ClickListener(s.nextUid, MarkerHandler, once)]
                  && (forall k :: 0 <= k < |s.listeners| ==> s.listeners[k].uid != s.nextUid)
                  && r.markerHandler == (if once then None else Some(s.nextUid))
                  && r.layers == s.layers && r.coordHandler == s.coordHandler)
  {
  }

  /** Registering a lasting marker handler and unregistering it, keeping the
      layer, leaves the engine as it was, but for the identity it used up. */
  lemma SetUnsetClickGenerateMarker(s: EngineState)
    requires Inv(s) && s.mapRef.OpenLayersMap? && s.markerHandler.None?
    ensures UnsetClickGenerateMarker(SetClickGenerateMarker(s, false), false) == s.(nextUid := s.nextUid + 1)
  {
    var l := ClickListener(s.nextUid, MarkerHandler, false);
    var s1 := SetClickGenerateMarker(s, false);
    assert s1 == s.(listeners := s.listeners + [l], markerHandler := Some(s.nextUid), nextUid := s.nextUid + 1);
    DropAppend(s.listeners, [l], ListenerUid, {s.nextUid});
    DropNothing(s.listeners, ListenerUid, {s.nextUid});
    assert Drop([l], ListenerUid, {s.nextUid}) == [];
    assert Drop(s1.listeners, ListenerUid, {s.nextUid}) == s.listeners;
  }

  /** `unsetClickGenerateMarker(removeLayer)`: an empty slot changes nothing,
      not even with the flag; otherwise the listener goes and, with the flag,
      a top-level `clickMarkerLayer` leaves the layer list. */
  lemma UnsetClickGenerateMarkerLayer(s: EngineState, removeLayer: bool)
    requires Inv(s) && s.mapRef.OpenLayersMap?
    ensures var r := UnsetClickGenerateMarker(s, removeLayer);
            && (s.markerHandler.None? ==> r == s)
            && (s.markerHandler.Some? ==> r.markerHandler.None?)
            && (s.markerHandler.Some? && !removeLayer ==> r.layers == s.layers)
            && (s.markerHandler.Some? && removeLayer && Lookup(s.layers, MarkerLayerId).Some?
                && Lookup(s.layers, MarkerLayerId).value.Top? ==>
                  var i := Lookup(s.layers, MarkerLayerId).value.i;
                  r.layers == s.layers[..i] + s.layers[i + 1..])
  {
  }

  // ---------------------------------------------------------------------
  // Clicks

  /** The identities of the `once` listeners among `ls`. */
  function OnceUids(ls: seq<ClickListener>): set<nat>
  {
    set k | 0 <= k < |ls| && ls[k].once :: ls[k].uid
  }

  lemma OnceUidsCons(ls: seq<ClickListener>)
    requires |ls| > 0
    ensures OnceUids(ls) == (if ls[0].once then {ls[0].uid} else {}) + OnceUids(ls[1..])
  {
    var a, b := OnceUids(ls), (if ls[0].once then {ls[0].uid} else {}) + OnceUids(ls[1..]);
    forall u | u in a ensures u in b {
      var k :| 0 <= k < |ls| && ls[k].once && ls[k].uid == u;
      if k > 0 {
        assert ls[1..][k - 1] == ls[k];
      }
    }
    forall u | u in b ensures u in a {
      if u !in OnceUids(ls[1..]) {
        assert ls[0].once && u == ls[0].uid;
      } else {
        var k :| 0 <= k < |ls[1..]| && ls[1..][k].once && ls[1..][k].uid == u;
        assert ls[k + 1] == ls[1..][k];
      }
    }
  }

  /** The calls the coordinate listeners among `ls` make for a click at `c`,
      in order. */
  function CoordinateCalls(ls: seq<ClickListener>, c: Coord): seq<Call>
  {
    if ls == [] then []
    else
      ClickCalls(ls[0], c) + CoordinateCalls(ls[1..], c)
  }

  /** A click unregisters exactly the `once` listeners it reaches, so each of
      them runs at most once. */
  lemma {:induction false} DispatchListeners(s: EngineState, ls: seq<ClickListener>, c: Coord)
    requires Inv(s)
    ensures Dispatch(s, ls, c).listeners == Drop(s.listeners, ListenerUid, OnceUids(ls))
    decreases |ls|
  {
    if ls == [] {
      assert OnceUids(ls) == {};
      DropNothing(s.listeners, ListenerUid, {});
    } else {
      var s1 := Fire(s, ls[0], c);
      var once := if ls[0].once then {ls[0].uid} else {};
      assert s1.listeners == Drop(s.listeners, ListenerUid, once) by {
        if !ls[0].once {
          DropNothing(s.listeners, ListenerUid, {});
        }
      }
      DispatchStep(s, ls, c);
      DispatchListeners(s1, ls[1..], c);
      DropTwice(s.listeners, ListenerUid, once, OnceUids(ls[1..]));
      OnceUidsCons(ls);
    }
  }

  /** Every coordinate listener reached calls its callback with the clicked
      coordinate, in registration order; marker listeners call nothing. */
  lemma {:induction false} DispatchCalls(s: EngineState, ls: seq<ClickListener>, c: Coord)
    requires Inv(s)
    ensures Dispatch(s, ls, c).calls == s.calls + CoordinateCalls(ls, c)
    decreases |ls|
  {
    if ls == [] {
      assert Dispatch(s, ls, c) == s;
      assert CoordinateCalls(ls, c) == [];
      assert s.calls + [] == s.calls;
    } else {
      var s1 := Fire(s, ls[0], c);
      DispatchStep(s, ls, c);
      DispatchCalls(s1, ls[1..], c);
      AppendAssoc(s.calls, ClickCalls(ls[0], c), CoordinateCalls(ls[1..], c));
    }
  }

  lemma AppendAssoc<T>(a: seq<T>, b: seq<T>, c: seq<T>)
    ensures a + b + c == a + (b + c)
  {
  }

  /** A `once` listener registered at the time of a click is gone after it. */
  lemma MapClickOnce(s: EngineState, c: Coord, l: ClickListener)
    requires Inv(s) && s.mapRef.OpenLayersMap? && l in s.listeners && l.once
    ensures l !in MapClick(s, c).listeners
  {
    DispatchListeners(s, s.listeners, c);
    var k :| 0 <= k < |s.listeners| && s.listeners[k] == l;
    assert l.uid in OnceUids(s.listeners);
  }

  /** The marker listener leaves `clickMarkerLayer` on the map, appending
      it only when it was missing, and adds the marker for the click to its
      source: a new layer holds just the marker, and an existing one gets it
      at the end of its features (unless it already holds a feature with
      that identity). Every lookup that succeeded still lands where it did. */
  lemma MarkerClickAddsMarker(s: EngineState, c: Coord)
    requires Inv(s)
    ensures var r := MarkerClick(s, c);
            var m := MarkerFeature(s.nextUid, c);
            && r.nextUid == s.nextUid + 1
            && |r.layers| == |s.layers| + (if Lookup(s.layers, MarkerLayerId).None? then 1 else 0)
            && (forall id :: Lookup(s.layers, id).Some? ==> Lookup(r.layers, id) == Lookup(s.layers, id))
            && Lookup(r.layers, MarkerLayerId).Some?
            && (var p := Lookup(r.layers, MarkerLayerId).value;
                && At(r.layers, p).kind.VectorLayer?
                && (Lookup(s.layers, MarkerLayerId).None? ==>
                      p == Top(|s.layers|) && At(r.layers, p).kind.source.features == [m])
                && (Lookup(s.layers, MarkerLayerId).Some? ==>
                      var fs := At(s.layers, p).kind.source.features;
                      (forall k :: 0 <= k < |fs| ==> fs[k].uid != s.nextUid) ==>
                        At(r.layers, p).kind.source.features == fs + [m]))
  {
    var m := MarkerFeature(s.nextUid, c);
    var e := Ensure(s.layers, MarkerLayerId, IdOptions(MarkerLayerId));
    var p := e.1;
    var src := At(e.0, p).kind.source;
    var layers := SetSource(e.0, p, AddFeature(src, m));
    assert MarkerClick(s, c).layers == layers;
    assert Lookup(layers, MarkerLayerId) == Some(p);
    assert At(layers, p).kind.source == AddFeature(src, m);
    if Lookup(s.layers, MarkerLayerId).None? {
      var l := NewVectorLayer(IdOptions(MarkerLayerId)).value;
      assert TopMatches(l, "id", Str(MarkerLayerId));
      assert p.i == |s.layers| && e.0[p.i] == l;
      assert p == Top(|s.layers|);
      assert src == EmptySource();
    }
  }

  // ---------------------------------------------------------------------
  // createVectorLayer

  /** `createVectorLayer` throws exactly for a falsy `id`, changing nothing;
      otherwise it appends one layer carrying that id, with an empty source
      unless one was given, and changes nothing else. */
  lemma CreateVectorLayerAppends(s: EngineState, opts: VectorLayerOptions)
    requires Inv(s) && (Truthy(opts.id) ==> s.mapRef.OpenLayersMap?)
    ensures var r := CreateVectorLayer(s, opts);
            && (r.Failure? <==> !Truthy(opts.id))
            && (r.Failure? ==> r.error == MissingLayerId)
            && (r.Success? ==>
                  && |r.value.layers| == |s.layers| + 1
                  && r.value.layers[..|s.layers|] == s.layers
                  && Get(r.value.layers[|s.layers|], "id") == opts.id
                  && r.value.layers[|s.layers|].kind.VectorLayer?
                  && (opts.source.None? ==> r.value.layers[|s.layers|].kind.source.features == [])
                  && r.value == s.(layers := r.value.layers))
  {
  }

  /** When no layer carried the id before, the lookup now finds the new one. */
  lemma CreateVectorLayerFound(s: EngineState, opts: VectorLayerOptions, id: string)
    requires Inv(s) && s.mapRef.OpenLayersMap? && opts.id == Str(id) && id != "" && Lookup(s.layers, id).None?
    ensures var r := CreateVectorLayer(s, opts);
            r.Success? && Lookup(r.value.layers, id) == Some(Top(|s.layers|))
  {
    var l := NewVectorLayer(opts).value;
    assert TopMatches(l, "id", Str(id));
  }

  // ---------------------------------------------------------------------
  // generatePulse

  /** `generatePulse` throws exactly when the coordinate is missing or has
      fewer than two ordinates. */
  lemma GeneratePulseFails(s: EngineState, geom: Option<seq<real>>, callback: Callback, count: int, timeout: int)
    requires Inv(s) && (PulseCoordinatesOk(geom) ==> s.mapRef.OpenLayersMap?)
    ensures var r := GeneratePulse(s, geom, callback, count, timeout);
            && (r.Failure? <==> geom.None? || |geom.value| < 2)
            && (r.Failure? ==> r.error == MissingCoordinates)
  {
  }

  /** The pulse set-up installs `s.nextUid` as the handler and readies
      `pluseLayer` with it. */
  lemma PulseSetupLayer(s: EngineState)
    requires Inv(s)
    ensures var r := PulseSetup(s);
            && r.pulseHandler == Some(s.nextUid) && r.nextUid == s.nextUid + 1
            && PulseLayerReady(s.layers, r.layers, s.nextUid)
  {
    var e := Ensure(s.layers, PulseLayerId, VectorLayerOptions(Str(PulseLayerId), Num(999), None, None));
    assert Lookup(PulseLayers(s.layers, s.nextUid), PulseLayerId) == Lookup(e.0, PulseLayerId);
  }

  /** Later pulses reuse the layer and the listener. */
  lemma GeneratePulseReuse(s: EngineState, geom: Option<seq<real>>, callback: Callback, count: int, timeout: int)
    requires Inv(s) && s.mapRef.OpenLayersMap? && PulseCoordinatesOk(geom) && s.pulseHandler.Some?
    ensures var r := GeneratePulse(s, geom, callback, count, timeout).value;
            r.layers == s.layers && r.pulseHandler == s.pulseHandler && r.listeners == s.listeners
  {
  }

  /** Each pulse schedules an interval of `timeout` ms cleared after
      `timeout * (count - 1)` ms, and calls a function callback at once,
      before any of the interval runs. */
  lemma GeneratePulseSchedule(s: EngineState, geom: Option<seq<real>>, callback: Callback, count: int, timeout: int)
    requires Inv(s) && s.mapRef.OpenLayersMap? && PulseCoordinatesOk(geom)
    ensures var r := GeneratePulse(s, geom, callback, count, timeout).value;
            && r.timers == s.timers + [PulseTimer(s.nextUid, timeout, timeout * (count - 1))]
            && r.calls == s.calls + (if callback.Fn? then [Call(callback.id, NoArgs)] else [])
  {
  }

  /** With the defaults (three pulses 400 ms apart) the interval is cleared
      after 800 ms. */
  lemma GeneratePulseDefaults(s: EngineState, geom: Option<seq<real>>, callback: Callback)
    requires Inv(s) && s.mapRef.OpenLayersMap? && PulseCoordinatesOk(geom)
    ensures Last(GeneratePulse(s, geom, callback, 3, 400).value.timers).stopAfter == 800
  {
    GeneratePulseSchedule(s, geom, callback, 3, 400);
  }

  // ---------------------------------------------------------------------
  // drawEventFeature and its teardown

  /** On an empty slot the session takes the normalised type, the Draw
      interaction exists exactly for a recognised type, and only the
      interactions, the identity counter and the slot change. */
  lemma StartDrawingSlot(s: EngineState, t: Option<DrawType>, a: Callback, b: Callback, c: Callback)
    requires Inv(s) && Lookup(s.layers, DrawLayerId).Some?
    ensures var r := StartDrawing(s, t, a, b, c);
            && r.0 == s.(interactions := r.0.interactions, nextUid := r.0.nextUid, draw := r.0.draw)
            && r.0.draw.DrawActive? && r.0.draw.typ == t
            && (r.0.draw.session.Some? <==> r.0.draw.typ.Some?)
            && (r.0.draw.session.Some? ==> r.0.draw.session.value.mode == ModeOf(r.0.draw.typ.value).0)
            && (r.1 == Fail(InvalidDrawType) <==> r.0.draw.typ.None?)
            && (r.1 == Pass <==> r.0.draw.typ.Some?)
  {
  }

  /** On an empty slot `drawEventFeature` starts a session as
      `StartDrawingSlot` describes. */
  lemma DrawEventFeatureSlot(s: EngineState, typ: DrawTypeArg, a: Callback, b: Callback, c: Callback, color: string)
    requires Inv(s) && s.mapRef.OpenLayersMap? && s.draw.NoDraw?
    ensures var r := DrawEventFeature(s, typ, a, b, c, color);
            && r.0.draw.DrawActive? && r.0.draw.typ == NormalizeDrawType(typ)
            && (r.0.draw.session.Some? <==> r.0.draw.typ.Some?)
            && (r.0.draw.session.Some? ==> r.0.draw.session.value.mode == ModeOf(r.0.draw.typ.value).0)
            && (r.1 == Fail(InvalidDrawType) <==> r.0.draw.typ.None?)
            && (r.1 == Pass <==> r.0.draw.typ.Some?)
  {
    var s1 := PrepareDrawLayer(s, color);
    assert DrawEventFeature(s, typ, a, b, c, color) == StartDrawing(s1, NormalizeDrawType(typ), a, b, c);
    StartDrawingSlot(s1, NormalizeDrawType(typ), a, b, c);
  }

  /** `drawEventFeature` always leaves `drawFeatureLayer` findable, creating
      it only when it was missing, whatever the slot holds. */
  lemma DrawEventFeatureLayer(s: EngineState, typ: DrawTypeArg, a: Callback, b: Callback, c: Callback, color: string)
    requires Inv(s) && s.mapRef.OpenLayersMap?
    ensures var r := DrawEventFeature(s, typ, a, b, c, color).0;
            && Lookup(r.layers, DrawLayerId).Some?
            && |r.layers| == |s.layers| + (if Lookup(s.layers, DrawLayerId).None? then 1 else 0)
  {
    var s1 := PrepareDrawLayer(s, color);
    if s1.draw.NoDraw? {
      StartDrawingSlot(s1, NormalizeDrawType(typ), a, b, c);
    }
  }

  /** While a draw session occupies the slot, another call keeps the slot,
      its type and the interactions. */
  lemma DrawEventFeatureOccupied(s: EngineState, typ: DrawTypeArg, a: Callback, b: Callback, c: Callback, color: string)
    requires Inv(s) && s.mapRef.OpenLayersMap? && s.draw.DrawActive?
    ensures var r := DrawEventFeature(s, typ, a, b, c, color);
            r.0.draw == s.draw && r.0.interactions == s.interactions && r.1 == Pass
  {
  }

  /** On an empty slot the trimmed type is matched against the six names
      without regard to case; an unrecognised type still occupies the slot,
      with no type and no Draw interaction, and the Draw constructor throws. */
  lemma DrawEventFeatureType(s: EngineState, text: string, a: Callback, b: Callback, c: Callback, color: string, t: DrawType)
    requires Inv(s) && s.mapRef.OpenLayersMap? && s.draw.NoDraw?
    ensures var r := DrawEventFeature(s, TextType(text), a, b, c, color);
            && r.0.draw.DrawActive?
            && (r.0.draw.typ == Some(t) <==> EqualsIgnoringCase(Trim(text), TypeName(t)))
            && (r.1 == Fail(InvalidDrawType) <==> r.0.draw.typ.None?)
            && (r.0.draw.session.Some? <==> r.0.draw.typ.Some?)
  {
    NormalizeDrawTypeMatches(text, t);
    DrawEventFeatureSlot(s, TextType(text), a, b, c, color);
  }

  /** Without a type the session draws lines. */
  lemma DrawEventFeatureDefault(s: EngineState, a: Callback, b: Callback, c: Callback, color: string)
    requires Inv(s) && s.mapRef.OpenLayersMap? && s.draw.NoDraw?
    ensures var r := DrawEventFeature(s, DefaultType, a, b, c, color);
            r.0.draw.DrawActive? && r.0.draw.typ == Some(LineString) && r.1 == Pass
            && r.0.draw.session.Some? && r.0.draw.session.value.mode == LineStringMode
  {
    NormalizeDrawTypeDefault();
    DrawEventFeatureSlot(s, DefaultType, a, b, c, color);
  }

  /** `drawend` tears the session down: its interactions leave the map and
      the slot empties, while the draw layer stays, now holding the finished
      feature, and the end callback has been called. */
  lemma DrawEndTearsDown(s: EngineState)
    requires Inv(s) && Sketching(s) && s.mapRef.OpenLayersMap?
    ensures var r := DrawEnd(s);
            && r.draw == NoDraw
            && r.interactions == Drop(s.interactions, InteractionUid, DrawIds(s.draw))
            && Lookup(r.layers, DrawLayerId) == Lookup(s.layers, DrawLayerId)
            && (var p := Lookup(r.layers, DrawLayerId).value;
                exists k :: 0 <= k < |At(r.layers, p).kind.source.features| &&
                  At(r.layers, p).kind.source.features[k].uid == s.draw.session.value.sketch.value.uid)
            && r.overlays == s.overlays
            && r.calls == s.calls + OnCall(s.draw.session.value.onEnd, DrawEndArgs(s.draw.session.value.sketch.value.uid))
  {
    var f := s.draw.session.value.sketch.value;
    var s1 := s.(calls := s.calls + OnCall(s.draw.session.value.onEnd, DrawEndArgs(f.uid)));
    var s2 := ClearDrawEventFeature(s1, false);
    var p := Lookup(s2.layers, DrawLayerId).value;
    FoundIsVector(s2.layers, DrawLayerId);
    var src := AddFeature(At(s2.layers, p).kind.source, f);
    var layers := SetSource(s2.layers, p, src);
    assert At(layers, p).kind.source == src;
  }

  /** `clearDrawEventFeature()` keeps the layers and the popups, and a second
      call changes nothing more. */
  lemma ClearDrawKeepsLayer(s: EngineState)
    requires Inv(s) && s.mapRef.OpenLayersMap?
    ensures var r := ClearDrawEventFeature(s, false);
            && r.layers == s.layers && r.overlays == s.overlays && r.draw == NoDraw
            && r.interactions == Drop(s.interactions, InteractionUid, DrawIds(s.draw))
            && ClearDrawEventFeature(r, false) == r
  {
    if s.draw.NoDraw? {
      DropNothing(s.interactions, InteractionUid, {});
    }
  }

  /** `clearDrawEventFeature(true)` also takes the popup of every feature of
      the draw layer off the map, then a top-level draw layer itself. */
  lemma ClearDrawRemovesLayer(s: EngineState)
    requires Inv(s) && s.mapRef.OpenLayersMap? && Lookup(s.layers, DrawLayerId).Some?
    ensures var r := ClearDrawEventFeature(s, true);
            var p := Lookup(s.layers, DrawLayerId).value;
            && At(s.layers, p).kind.VectorLayer?
            && r.overlays == Drop(s.overlays, OverlayUid, LayerPopups(s, p))
            && (forall o :: o in r.overlays ==> o.uid !in LayerPopups(s, p))
            && (p.Top? ==> r.layers == s.layers[..p.i] + s.layers[p.i + 1..])
            && r.draw == NoDraw
  {
    FoundIsVector(s.layers, DrawLayerId);
  }

  // ---------------------------------------------------------------------
  // Sketch events, finishDrawing, Escape and the context menu

  /** `drawstart`: the session now holds a sketch under a fresh identity,
      with the coordinates given and the geometry its mode draws, and the
      start callback, when it is a function, is called with that feature.
      Nothing else changes. */
  lemma DrawStartSketches(s: EngineState, coords: Coords)
    requires Inv(s) && s.draw.DrawActive? && s.draw.session.Some? && s.draw.session.value.sketch.None?
    ensures var r := DrawStart(s, coords);
            var d := s.draw.session.value;
            && Sketching(r)
            && r.draw == s.draw.(session := Some(d.(sketch := r.draw.session.value.sketch)))
            && r.draw.session.value.sketch.value.uid == s.nextUid
            && r.draw.session.value.sketch.value.geometry == Geometry(SketchKind(d.mode, d.geometryFunction), coords)
            && (d.mode == CircleMode ==>
                  (r.draw.session.value.sketch.value.geometry.kind == PolygonKind <==> d.geometryFunction != NoGeometryFunction))
            && r.calls == s.calls + (if d.onStart.Fn? then [Call(d.onStart.id, DrawStartArgs(s.nextUid))] else [])
            && r == s.(draw := r.draw, nextUid := s.nextUid + 1, calls := r.calls)
  {
  }

  /** A change of the sketch's geometry: the sketch takes the new
      coordinates, and the drawing callback hears of it exactly when the
      sketch is a line or a polygon and the callback is a function; points
      and circles report nothing. Nothing else changes. */
  lemma DrawChangeReports(s: EngineState, coords: Coords)
    requires Inv(s) && Sketching(s)
    ensures var r := DrawChange(s, coords);
            var d := s.draw.session.value;
            var f := d.sketch.value;
            var reported := f.geometry.kind == LineStringKind || f.geometry.kind == PolygonKind;
            && Sketching(r)
            && r.draw == s.draw.(session := Some(d.(sketch := Some(f.(geometry := f.geometry.(coords := coords))))))
            && (reported ==> r.calls == s.calls + OnCall(d.onDrawing, DrawingArgs(f.uid)))
            && (!reported ==> r.calls == s.calls)
            && (|r.calls| > |s.calls| <==> reported && d.onDrawing.Fn?)
            && r == s.(draw := r.draw, calls := r.calls)
  {
  }

  /** `finishDrawing()` ends a sketch under way as `drawend` does, emptying
      the draw slot, and otherwise changes nothing. In line and polygon mode
      the sketch first takes its final coordinates, and a line or polygon
      geometry reports that change to the drawing callback before the end
      callback is called; a point or circle sketch goes straight to
      `drawend`. */
  lemma FinishDrawingEnds(s: EngineState, finalCoords: Coords)
    requires Inv(s) && (Sketching(s) ==> s.mapRef.OpenLayersMap?)
    ensures var r := FinishDrawing(s, finalCoords);
            && (!Sketching(s) ==> r == s)
            && (Sketching(s) ==>
                  var d := s.draw.session.value;
                  var f := d.sketch.value;
                  var reported := f.geometry.kind == LineStringKind || f.geometry.kind == PolygonKind;
                  && r.draw == NoDraw
                  && r.overlays == s.overlays
                  && (d.mode == LineStringMode || d.mode == PolygonMode ==>
                        && r == DrawEnd(DrawChange(s, finalCoords))
                        && r.calls == s.calls + (if reported then OnCall(d.onDrawing, DrawingArgs(f.uid)) else [])
                                              + OnCall(d.onEnd, DrawEndArgs(f.uid)))
                  && (d.mode == PointMode || d.mode == CircleMode ==>
                        && r == DrawEnd(s)
                        && r.calls == s.calls + OnCall(d.onEnd, DrawEndArgs(f.uid))))
  {
    if Sketching(s) {
      var d := s.draw.session.value;
      if d.mode == LineStringMode || d.mode == PolygonMode {
        ChangeThenEnd(s, finalCoords);
      } else {
        DrawEndTearsDown(s);
      }
    }
  }

  /** Escape and a right-click on the map element both finish the drawing,
      and nothing else. */
  lemma EscapeAndContextMenuFinish(s: EngineState, finalCoords: Coords)
    requires Inv(s) && (Sketching(s) ==> s.mapRef.OpenLayersMap?)
    ensures KeyDown(s, "Escape", finalCoords) == FinishDrawing(s, finalCoords)
    ensures ContextMenu(s, finalCoords) == FinishDrawing(s, finalCoords)
  {
  }

  /** A last geometry change followed by `drawend`: the drawing callback
      hears of a line or polygon, then the end callback is called. */
  lemma ChangeThenEnd(s: EngineState, finalCoords: Coords)
    requires Inv(s) && Sketching(s) && s.mapRef.OpenLayersMap?
    ensures var d := s.draw.session.value;
            var f := d.sketch.value;
            var reported := f.geometry.kind == LineStringKind || f.geometry.kind == PolygonKind;
            var r := DrawEnd(DrawChange(s, finalCoords));
            && r.draw == NoDraw
            && r.overlays == s.overlays
            && r.calls == s.calls + (if reported then OnCall(d.onDrawing, DrawingArgs(f.uid)) else [])
                                  + OnCall(d.onEnd, DrawEndArgs(f.uid))
  {
    var s1 := DrawChange(s, finalCoords);
    DrawEndTearsDown(s1);
  }

  /** Every key other than Delete, Backspace and Escape is ignored. */
  lemma KeyDownOther(s: EngineState, key: string, finalCoords: Coords)
    requires Inv(s) && key != "Delete" && key != "Backspace" && key != "Escape"
    ensures KeyDown(s, key, finalCoords) == s
  {
  }

  // ---------------------------------------------------------------------
  // Select mode and the Delete key

  /** `setSelectDrawFeatureEvent` installs a handler, with an empty
      selection, exactly when `drawFeatureLayer` exists and no handler is
      installed; `unsetSelectDrawFeatureEvent` empties the slot. */
  lemma SetSelectInstalls(s: EngineState, color: string)
    requires Inv(s) && s.mapRef.OpenLayersMap?
    ensures var r := SetSelect(s, color);
            && (r != s <==> Lookup(s.layers, DrawLayerId).Some? && s.select.None?)
            && (r != s ==> r.select == Some(SelectHandler(s.nextUid, color, [])))
            && UnsetSelect(r).select.None?
  {
  }

  /** `unsetSelectDrawFeatureEvent` takes exactly the Select interaction off
      the map and empties the slot; without a handler it changes nothing. */
  lemma UnsetSelectRemoves(s: EngineState)
    requires Inv(s) && (s.select.Some? ==> s.mapRef.OpenLayersMap?)
    ensures var r := UnsetSelect(s);
            && r.select.None?
            && (s.select.None? ==> r == s)
            && (s.select.Some? ==>
                  && r.interactions == Drop(s.interactions, InteractionUid, {s.select.value.uid})
                  && (forall x :: x in r.interactions <==> x in s.interactions && x.uid != s.select.value.uid)
                  && r == s.(interactions := r.interactions, select := None))
  {
  }

  /** Installing a Select handler and removing it again gives back the
      interactions and the empty slot; only the identity used up stays
      spent. */
  lemma SetUnsetSelect(s: EngineState, color: string)
    requires Inv(s) && s.mapRef.OpenLayersMap? && s.select.None?
    ensures var s1 := SetSelect(s, color);
            UnsetSelect(s1) == s.(nextUid := s1.nextUid)
  {
    if Lookup(s.layers, DrawLayerId).Some? {
      var i := Interaction(s.nextUid, SelectInteraction);
      DropAppend(s.interactions, [i], InteractionUid, {s.nextUid});
      DropNothing(s.interactions, InteractionUid, {s.nextUid});
      assert Drop([i], InteractionUid, {s.nextUid}) == [];
      assert Drop(s.interactions + [i], InteractionUid, {s.nextUid}) == s.interactions;
    }
  }

  /** Delete or Backspace without a select handler changes nothing. */
  lemma DeleteWithoutSelect(s: EngineState, key: string, finalCoords: Coords)
    requires Inv(s) && s.select.None? && (key == "Delete" || key == "Backspace")
    ensures KeyDown(s, key, finalCoords) == s
  {
  }

  /** With a select handler, Delete or Backspace removes every selected
      feature from the draw layer's source and every such feature's popup
      from the map, and leaves the selection empty. */
  lemma DeleteRemovesSelected(s: EngineState, key: string, finalCoords: Coords)
    requires Inv(s) && CanDelete(s) && s.select.Some? && |s.select.value.selected| > 0
    requires key == "Delete" || key == "Backspace"
    ensures var r := KeyDown(s, key, finalCoords);
            var sel := s.select.value.selected;
            var p := Lookup(s.layers, DrawLayerId).value;
            && Lookup(r.layers, DrawLayerId) == Some(p)
            && At(s.layers, p).kind.VectorLayer? && At(r.layers, p).kind.VectorLayer?
            && At(r.layers, p).kind.source.features
                 == Drop(At(s.layers, p).kind.source.features, FeatureUid, Elems(sel))
            && (forall f :: f in At(r.layers, p).kind.source.features ==> f.uid !in sel)
            && (forall o :: o in r.overlays <==> o in s.overlays && o.uid !in PopupsOf(sel, s.popupOf))
            && r.select == Some(s.select.value.(selected := []))
  {
    FoundIsVector(s.layers, DrawLayerId);
  }

  // ---------------------------------------------------------------------
  // The map and zoom setters

  /** The `map` setter only takes a built-in `Map`; it then empties the two
      click slots and the pulse slot, but leaves the draw and select slots
      and every listener and interaction registered on the old map. */
  lemma SetMapSlots(s: EngineState, arg: MapArg)
    requires Inv(s)
    ensures var r := SetMap(s, arg);
            && (arg.OtherMapArg? ==> r == s)
            && (arg.BuiltinMapArg? ==>
                  && r.mapRef == BuiltinMap
                  && r.coordHandler.None? && r.markerHandler.None? && r.pulseHandler.None?
                  && r.draw == s.draw && r.select == s.select
                  && r.listeners == s.listeners && r.interactions == s.interactions)
  {
  }

  /** The `zoom` setter: a number is handed to the view's `setZoom` as it
      is; another value goes through `Number`, and a NaN result is dropped.
      (The view's own zoom bounds are the library's.) */
  lemma SetZoomNumber(s: EngineState, arg: ZoomArg)
    requires Inv(s) && (ZoomReachesView(arg) ==> s.mapRef.OpenLayersMap?)
    ensures var r := SetZoom(s, arg);
            && (arg.NumberArg? ==> r.zoom == arg.n)
            && (arg.OtherZoomArg? && arg.asNumber.NaN? ==> r == s)
            && (arg.OtherZoomArg? && !arg.asNumber.NaN? ==> r.zoom == arg.asNumber)
            && r == s.(zoom := r.zoom)
  {
  }

  // ---------------------------------------------------------------------
  // Popups

  /** `createOverlay` adds one popup at the coordinate, offset by (2, 2),
      with the two default rows, linked from the feature when one is given;
      its delete button takes the popup off the map again. */
  lemma CreateOverlayDeleteRoundTrip(s: EngineState, at: Coord, typ: Value)
    requires Inv(s) && s.mapRef.OpenLayersMap?
    ensures var (s1, h) := CreateOverlay(s, at, None, typ);
            && h == s.nextUid
            && s1.overlays == s.overlays + [Overlay(h, at, 2, 2, s1.overlays[|s.overlays|].rows, None)]
            && |s1.overlays[|s.overlays|].rows| == 2
            && DeletePopup(s1, s1.overlays[|s.overlays|]) == s1.(overlays := s.overlays)
  {
    var (s1, h) := CreateOverlay(s, at, None, typ);
    var o := s1.overlays[|s.overlays|];
    DropAppend(s.overlays, [o], OverlayUid, {h});
    DropNothing(s.overlays, OverlayUid, {h});
    assert Drop([o], OverlayUid, {h}) == [];
  }

  /** A popup created for a feature is what the feature's `popup` points to. */
  lemma CreateOverlayLinks(s: EngineState, at: Coord, feature: nat, typ: Value)
    requires Inv(s) && s.mapRef.OpenLayersMap?
    ensures var (s1, h) := CreateOverlay(s, at, Some(feature), typ);
            s1.popupOf == s.popupOf[feature := h] && Last(s1.overlays).feature == Some(feature)
  {
  }

  /** The popup's delete button takes exactly that popup off the map. When
      the popup was made for a feature and `drawFeatureLayer` exists, that
      feature leaves the layer's source and every other feature stays;
      otherwise the layers are untouched. */
  lemma DeletePopupRemoves(s: EngineState, o: Overlay)
    requires Inv(s) && s.mapRef.OpenLayersMap? && o in s.overlays
    ensures var r := DeletePopup(s, o);
            && r.overlays == Drop(s.overlays, OverlayUid, {o.uid})
            && (forall x :: x in r.overlays <==> x in s.overlays && x.uid != o.uid)
            && (forall id :: Lookup(r.layers, id) == Lookup(s.layers, id))
            && (Lookup(s.layers, DrawLayerId).None? || o.feature.None? ==> r.layers == s.layers)
            && (Lookup(s.layers, DrawLayerId).Some? && o.feature.Some? ==>
                  var p := Lookup(s.layers, DrawLayerId).value;
                  && At(s.layers, p).kind.VectorLayer? && At(r.layers, p).kind.VectorLayer?
                  && At(r.layers, p).kind.source.features
                       == Drop(At(s.layers, p).kind.source.features, FeatureUid, {o.feature.value})
                  && (forall f :: f in At(r.layers, p).kind.source.features <==>
                        f in At(s.layers, p).kind.source.features && f.uid != o.feature.value))
            && r == s.(overlays := r.overlays, layers := r.layers)
  {
    if Lookup(s.layers, DrawLayerId).Some? {
      FoundIsVector(s.layers, DrawLayerId);
    }
  }

  /** `moveOverlay` without an overlay does nothing; otherwise it moves that
      popup and no other. */
  lemma MoveOverlayMoves(s: EngineState, overlay: Option<nat>, at: Coord)
    requires Inv(s)
    ensures var r := MoveOverlay(s, overlay, at);
            && (overlay.None? ==> r == s)
            && |r.overlays| == |s.overlays|
            && (forall k :: 0 <= k < |s.overlays| ==>
                  && r.overlays[k].uid == s.overlays[k].uid
                  && (overlay == Some(s.overlays[k].uid) ==> r.overlays[k].position == at)
                  && (overlay != Some(s.overlays[k].uid) ==> r.overlays[k] == s.overlays[k]))
  {
  }
}
