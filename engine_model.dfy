/** The state of a MapUtile engine: the OpenLayers map it drives (layers,
    overlays, interactions, click listeners, view zoom), its five private
    handler slots, and the callbacks and timers it has set off. Also the
    layer-list updates every operation is built from, each with what it keeps
    of the layer lookup. */
module EngineModel {
  import opened Wrappers
  import opened Seqs
  import opened MapModel
  import opened MapUtilePure

  /** The ids of the layers the engine creates for itself. The pulse layer's
      id is spelled as in MapUtile.js. */
  const DrawLayerId: string := "drawFeatureLayer"
  const MarkerLayerId: string := "clickMarkerLayer"
  const PulseLayerId: string := "pluseLayer"

  /** The function id standing for `console.log`, the default click
      callback. */
  const ConsoleLog: nat := 0

  /** What `#map` holds: the OpenLayers map given to the constructor, or a
      built-in JavaScript `Map`, the only thing the `map` setter accepts. */
  datatype MapRef = OpenLayersMap | BuiltinMap

  /** A JavaScript number as the view's zoom. */
  datatype JsNumber = Finite(x: real) | Infinite(positive: bool) | NaN

  /** A user function (by id), or a value that is not a function. */
  datatype Callback = NoFunction | Fn(id: nat)

  /** The arguments the engine passes when it calls back. */
  datatype CallArgs =
    | ClickArgs(at: Coord)          // `callback([lon, lat])`
    | DrawStartArgs(feature: nat)   // `('drawstart', geom, feature)`
    | DrawingArgs(feature: nat)     // `('drawing', geom, measure)` for the sketch's geometry
    | DrawEndArgs(feature: nat)     // `('drawend', geom)` for the finished feature's geometry
    | NoArgs                        // the pulse callback

  datatype Call = Call(fn: nat, args: CallArgs)

  /** A popup overlay made by `createOverlay`: where it is shown, its fixed
      pixel offset, the rows of its card, and the feature its delete button
      removes. */
  datatype Overlay = Overlay(uid: nat, position: Coord, offsetX: int, offsetY: int, rows: seq<Row>, feature: Option<nat>)

  datatype InteractionKind =
    | SnapInteraction
    | DrawInteraction(mode: DrawMode, geometryFunction: GeometryFunction)
    | SelectInteraction

  datatype Interaction = Interaction(uid: nat, kind: InteractionKind)

  /** The two listeners the engine registers for map clicks. */
  datatype ClickHandler = CoordinateHandler(callback: nat) | MarkerHandler

  datatype ClickListener = ClickListener(uid: nat, handler: ClickHandler, once: bool)

  /** A constructed Draw interaction with the callbacks its `drawstart`,
      geometry-`change` and `drawend` listeners call, and the feature being
      sketched, if any. */
  datatype DrawSession = DrawSession(
    uid: nat, mode: DrawMode, geometryFunction: GeometryFunction,
    onStart: Callback, onDrawing: Callback, onEnd: Callback,
    sketch: Option<Feature>)

  /** `#mapDrawFeatureHandler`: `{}`, or `{type, snap, draw}` where `type` is
      undefined for an unrecognised type and `draw` is absent when the Draw
      constructor rejected it. */
  datatype DrawSlot = NoDraw | DrawActive(typ: Option<DrawType>, snap: nat, session: Option<DrawSession>)

  /** `#mapSelectDrawFeatureHandler`: the Select interaction, its highlight
      colour and its collection of selected features (by identity). */
  datatype SelectHandler = SelectHandler(uid: nat, color: string, selected: seq<nat>)

  /** A pulse's repeating add/remove timer: its period and the delay after
      which it is cleared. */
  datatype PulseTimer = PulseTimer(feature: nat, period: int, stopAfter: int)

  datatype EngineState = EngineState(
    mapRef: MapRef,
    zoom: JsNumber,
    layers: seq<Layer>,
    overlays: seq<Overlay>,
    interactions: seq<Interaction>,
    listeners: seq<ClickListener>,
    coordHandler: Option<nat>,
    markerHandler: Option<nat>,
    pulseHandler: Option<nat>,
    draw: DrawSlot,
    select: Option<SelectHandler>,
    popupOf: map<nat, nat>,
    nextUid: nat,
    calls: seq<Call>,
    timers: seq<PulseTimer>)

  function OverlayUid(o: Overlay): nat { o.uid }
  function InteractionUid(i: Interaction): nat { i.uid }
  function ListenerUid(l: ClickListener): nat { l.uid }

  /** `getFindLayer('id', id)`. */
  function Lookup(layers: seq<Layer>, id: string): Option<Path>
  {
    FindLayer(layers, "id", Str(id))
  }

  predicate Reserved(v: Value)
  {
    v == Str(DrawLayerId) || v == Str(MarkerLayerId) || v == Str(PulseLayerId)
  }

  /** Whatever the lookup can return for one of the engine's own ids is a
      vector layer: no top-level tile layer, and no group child other than a
      vector layer, carries such an id. */
  predicate ReservedOk(l: Layer)
  {
    && (l.kind.TileLayer? ==> !Reserved(Get(l, "id")))
    && (l.kind.LayerGroup? ==>
          forall j :: 0 <= j < |l.kind.children| && Reserved(Get(l.kind.children[j], "id")) ==>
            l.kind.children[j].kind.VectorLayer?)
  }

  predicate ReservedAreVector(layers: seq<Layer>)
  {
    forall i :: 0 <= i < |layers| ==> ReservedOk(layers[i])
  }

  /** The engine's invariant: its own layers are vector layers; the pulse
      handler and an occupied draw slot each have their layer on the map; no
      listener, interaction or overlay uses an identity not yet handed out. */
  predicate Inv(s: EngineState)
  {
    && ReservedAreVector(s.layers)
    && (s.pulseHandler.Some? ==> Lookup(s.layers, PulseLayerId).Some?)
    && (s.draw.DrawActive? ==> Lookup(s.layers, DrawLayerId).Some?)
    && (forall k :: 0 <= k < |s.listeners| ==> s.listeners[k].uid < s.nextUid)
    && (forall k :: 0 <= k < |s.interactions| ==> s.interactions[k].uid < s.nextUid)
    && (forall k :: 0 <= k < |s.overlays| ==> s.overlays[k].uid < s.nextUid)
  }

  /** A layer found under one of the engine's ids has a source. */
  lemma FoundIsVector(layers: seq<Layer>, id: string)
    requires ReservedAreVector(layers) && Reserved(Str(id)) && Lookup(layers, id).Some?
    ensures At(layers, Lookup(layers, id).value).kind.VectorLayer?
  {
    var p := Lookup(layers, id).value;
    assert ReservedOk(layers[p.i]);
  }

  // ---------------------------------------------------------------------
  // Layer-list updates

  /** Two layers the lookup by id and the invariant cannot tell apart. */
  predicate SameShape(a: Layer, b: Layer)
  {
    && Agree(a, b, "id")
    && a.kind.TileLayer? == b.kind.TileLayer?
    && a.kind.VectorLayer? == b.kind.VectorLayer?
  }

  /** Replacing a layer in place (a new source, style or visibility) keeps
      every lookup by id and the invariant on the layer list. */
  function Replace(layers: seq<Layer>, p: Path, l: Layer): (r: seq<Layer>)
    requires ValidPath(layers, p) && SameShape(At(layers, p), l)
    ensures |r| == |layers| && ValidPath(r, p) && At(r, p) == l
    ensures forall id :: Lookup(r, id) == Lookup(layers, id)
    ensures ReservedAreVector(layers) ==> ReservedAreVector(r)
  {
    ReplaceKeeps(layers, p, l);
    Put(layers, p, l)
  }

  lemma ReplaceKeeps(layers: seq<Layer>, p: Path, l: Layer)
    requires ValidPath(layers, p) && SameShape(At(layers, p), l)
    ensures forall id :: Lookup(Put(layers, p, l), id) == Lookup(layers, id)
    ensures ReservedAreVector(layers) ==> ReservedAreVector(Put(layers, p, l))
  {
    var r := Put(layers, p, l);
    forall id ensures Lookup(r, id) == Lookup(layers, id) {
      FindLayerPut(layers, p, l, "id", Str(id));
    }
    if ReservedAreVector(layers) {
      forall i | 0 <= i < |r| ensures ReservedOk(r[i]) {
        assert ReservedOk(layers[i]);
        if i == p.i && p.Child? {
          var cs, cs' := layers[i].kind.children, r[i].kind.children;
          forall j | 0 <= j < |cs'| && Reserved(Get(cs'[j], "id")) ensures cs'[j].kind.VectorLayer? {
            if j != p.j {
              assert cs'[j] == cs[j];
            }
          }
        }
      }
    }
  }

  /** The vector layer at `p` with its source replaced. */
  function SetSource(layers: seq<Layer>, p: Path, src: VectorSource): (r: seq<Layer>)
    requires ValidPath(layers, p) && At(layers, p).kind.VectorLayer?
    ensures |r| == |layers| && ValidPath(r, p) && At(r, p) == At(layers, p).(kind := VectorLayer(src))
    ensures forall id :: Lookup(r, id) == Lookup(layers, id)
    ensures ReservedAreVector(layers) ==> ReservedAreVector(r)
  {
    Replace(layers, p, At(layers, p).(kind := VectorLayer(src)))
  }

  /** `source.on('addfeature', ...)` on the vector layer at `p`, registering
      the listener `h`. */
  function Listen(layers: seq<Layer>, p: Path, h: nat): (r: seq<Layer>)
    requires ValidPath(layers, p) && At(layers, p).kind.VectorLayer?
    ensures |r| == |layers| && ValidPath(r, p)
    ensures var src := At(layers, p).kind.source;
            At(r, p) == At(layers, p).(kind := VectorLayer(src.(addFeatureListeners := src.addFeatureListeners + [h])))
    ensures forall id :: Lookup(r, id) == Lookup(layers, id)
    ensures ReservedAreVector(layers) ==> ReservedAreVector(r)
  {
    var src := At(layers, p).kind.source;
    SetSource(layers, p, src.(addFeatureListeners := src.addFeatureListeners + [h]))
  }

  /** `map.addLayer(l)`: a lookup that already succeeded still finds the same
      layer; one that failed now finds the new layer exactly when it passes
      the lookup's test. */
  function AppendLayer(layers: seq<Layer>, l: Layer): (r: seq<Layer>)
    ensures r == layers + [l]
    ensures forall id :: Lookup(layers, id).Some? ==> Lookup(r, id) == Lookup(layers, id)
    ensures forall id :: Lookup(layers, id).None? ==>
              (Lookup(r, id).Some? <==> TopMatches(l, "id", Str(id)))
    ensures forall id :: Lookup(layers, id).None? && Lookup(r, id).Some? ==> Lookup(r, id).value.i == |layers|
    ensures ReservedAreVector(layers) && ReservedOk(l) ==> ReservedAreVector(r)
  {
    AppendKeeps(layers, l);
    layers + [l]
  }

  lemma AppendKeeps(layers: seq<Layer>, l: Layer)
    ensures forall id :: Lookup(layers, id).Some? ==> Lookup(layers + [l], id) == Lookup(layers, id)
    ensures forall id :: Lookup(layers, id).None? ==>
              (Lookup(layers + [l], id).Some? <==> TopMatches(l, "id", Str(id)))
    ensures forall id :: Lookup(layers, id).None? && Lookup(layers + [l], id).Some? ==>
              Lookup(layers + [l], id).value.i == |layers|
    ensures ReservedAreVector(layers) && ReservedOk(l) ==> ReservedAreVector(layers + [l])
  {
    var r := layers + [l];
    forall id ensures Lookup(layers, id).Some? ==> Lookup(r, id) == Lookup(layers, id)
      ensures Lookup(layers, id).None? ==> (Lookup(r, id).Some? <==> TopMatches(l, "id", Str(id)))
      ensures Lookup(layers, id).None? && Lookup(r, id).Some? ==> Lookup(r, id).value.i == |layers|
    {
      FindLayerAppend(layers, l, "id", Str(id));
    }
    if ReservedAreVector(layers) && ReservedOk(l) {
      assert forall i :: 0 <= i < |r| ==> r[i] == if i < |layers| then layers[i] else l;
    }
  }

  /** `map.removeLayer(...)` of what `getFindLayer('id', id)` returned: a
      top-level layer leaves the list; other lookups that succeeded still
      succeed. */
  function RemoveLookedUp(layers: seq<Layer>, id: string): (r: seq<Layer>)
    ensures r == RemoveFound(layers, Lookup(layers, id))
    ensures forall id' :: id' != id && Lookup(layers, id').Some? ==> Lookup(r, id').Some?
    ensures ReservedAreVector(layers) ==> ReservedAreVector(r)
  {
    RemoveKeeps(layers, id);
    RemoveFound(layers, Lookup(layers, id))
  }

  lemma RemoveKeeps(layers: seq<Layer>, id: string)
    ensures forall id' :: id' != id && Lookup(layers, id').Some? ==>
              Lookup(RemoveFound(layers, Lookup(layers, id)), id').Some?
    ensures ReservedAreVector(layers) ==> ReservedAreVector(RemoveFound(layers, Lookup(layers, id)))
  {
    var p := Lookup(layers, id);
    var r := RemoveFound(layers, p);
    if p.Some? && p.value.Top? {
      var i := p.value.i;
      forall id' | id' != id && Lookup(layers, id').Some? ensures Lookup(r, id').Some? {
        assert !TopMatches(layers[i], "id", Str(id'));
        FindLayerRemoveOther(layers, i, "id", Str(id'));
      }
      if ReservedAreVector(layers) {
        forall k | 0 <= k < |r| ensures ReservedOk(r[k]) {
          assert r[k] == if k < i then layers[k] else layers[k + 1];
        }
      }
    }
  }

  // ---------------------------------------------------------------------
  // Identities of features and their popups

  function FeatureUids(fs: seq<Feature>): (r: seq<nat>)
    ensures |r| == |fs| && forall k :: 0 <= k < |fs| ==> r[k] == fs[k].uid
  {
    seq(|fs|, k requires 0 <= k < |fs| => fs[k].uid)
  }

  function Elems(xs: seq<nat>): set<nat>
  {
    set x | x in xs
  }

  /** The overlays `f.popup` points to, over the features with uids `uids`. */
  function PopupsOf(uids: seq<nat>, popupOf: map<nat, nat>): set<nat>
  {
    set k | 0 <= k < |uids| && uids[k] in popupOf :: popupOf[uids[k]]
  }

  /** Extending the features by one adds that feature's popup, if any. */
  lemma PopupsOfSnoc(uids: seq<nat>, u: nat, popupOf: map<nat, nat>)
    ensures PopupsOf(uids + [u], popupOf) == PopupsOf(uids, popupOf) + (if u in popupOf then {popupOf[u]} else {})
  {
    var a, b := PopupsOf(uids + [u], popupOf), PopupsOf(uids, popupOf) + (if u in popupOf then {popupOf[u]} else {});
    forall o | o in a ensures o in b {
      var k :| 0 <= k < |uids| + 1 && (uids + [u])[k] in popupOf && popupOf[(uids + [u])[k]] == o;
      if k < |uids| {
        assert uids[k] == (uids + [u])[k];
      }
    }
    forall o | o in b ensures o in a {
      if o in PopupsOf(uids, popupOf) {
        var k :| 0 <= k < |uids| && uids[k] in popupOf && popupOf[uids[k]] == o;
        assert (uids + [u])[k] == uids[k];
      } else {
        assert (uids + [u])[|uids|] == u;
      }
    }
  }

  lemma ElemsSnoc(xs: seq<nat>, x: nat)
    ensures Elems(xs + [x]) == Elems(xs) + {x}
  {
  }
}
