# MapUtile engine, base-map control and theme slice in Dafny

This project models the map engine of a React/OpenLayers front end and proves
properties of the model. The pieces are:

- the `MapUtile` class (src/shared/utils/openlayers/MapUtile.js). It is a
  state machine over an abstract OpenLayers map:
  - the ordered list of layers: tile layers, vector layers with a feature
    source, and groups with ordered children;
  - the popups (overlays), the interactions and the click listeners;
  - the five private handler slots (click coordinate, click marker, pulse,
    draw record, select handler with its selection);
  - each feature's `popup` back-reference;
- the VWorld tile source and its fixed two-layer base-map group (VworldMap.js);
- the base-map switch and the traffic-layer toggle of MapLayerControl.jsx;
- the two-state theme slice of the store (createThemeSlice.js).

The modules:

- `Wrappers`: `Option`, `Result` and `Outcome`.
- `Seqs`: removal by identity (`Drop`), as done by `removeFeature`,
  `removeOverlay`, `removeInteraction` and `un`.
- `MapModel`: layers as values, reached through a `Path`, and `getFindLayer`
  as `FindLayer`.
- `MapUtilePure`: the parts of MapUtile.js that only compute a value:
  - `createFeature`;
  - the draw-type normalisation (JavaScript `trim` plus a case-insensitive match);
  - the default rows of `createModal`;
  - the layer `createVectorLayer` builds.
- `EngineModel`: the engine's state (`EngineState`), its invariant (`Inv`),
  and the layer-list updates the operations are built from. Each update says
  what it keeps of the layer lookup.
- `EngineSpec`: one function per engine operation or event, from state to state.
- `EngineProperties`: what the engine promises, proved over those functions.
- `MapUtileEngine`: the class `MapUtile`. Its fields mirror `EngineState`, and
  its methods update them in place. Each method is proved to take `State()`
  exactly where the matching `EngineSpec` function takes it and to keep
  `Valid()`. So everything `EngineProperties` proves holds of the class.
- `VworldMap`: the tile URL and the base-map group.
- `MapLayerControl`: the two handlers, as methods over a possibly-null
  `MapUtile`, and what they do to the layer list.
- `ThemeSlice`: the store as a key/value map and the theme slice's three members.

Modelling decisions:

- Identities. Features, overlays, interactions and listeners carry a number
  drawn from the engine's counter `nextUid`. It stands for the object identity
  OpenLayers uses.
- Popups. A feature's `popup` is the map `popupOf` from feature to overlay.
- Callbacks. A callback is a function id (`Callback`). Each call the engine
  makes is appended to the `calls` trace, so "called synchronously" is a
  statement about the state right after the operation.
- Timers. A pulse's `setInterval`/`setTimeout` pair is recorded as a
  `PulseTimer` with its period and its stop time.
- The `map` setter. It tests `instanceof Map`. `ol/Map` is never imported, so
  this is JavaScript's built-in `Map`. Only such an argument is accepted, and
  afterwards the engine holds a `BuiltinMap`. Every operation that calls an
  OpenLayers map method requires `mapRef == OpenLayersMap`, because the source
  would throw a `TypeError` there.
- The pulse layer's id. It is `"pluseLayer"`, spelled as in the source.

## Model

| member | source | states |
|---|---|---|
| MapModel.FindLayer | src/shared/utils/openlayers/MapUtile.js:298-311 | Nothing is found exactly when no top-level layer passes the test. When something is found: it matches; it sits in the first top-level layer that passes; it is a child exactly when that layer is a group, and then the first matching child. |
| MapModel.FindLayerNeverTopGroup | src/shared/utils/openlayers/MapUtile.js:307-311 | A group is never returned itself: a match inside a group yields the child. |
| MapModel.FindLayerEmpty | src/shared/utils/openlayers/MapUtile.js:299 | An empty layer list finds nothing. |
| MapModel.FindLayerAppend | src/shared/utils/openlayers/MapUtile.js:298-311 | Appending a layer never changes a lookup that already succeeded. A lookup that failed now finds the new layer exactly when it passes the top-level test. |
| MapModel.FindLayerRemoveOther | src/shared/utils/openlayers/MapUtile.js:298-311 | Removing a top-level layer that fails the test does not change whether the lookup succeeds. |
| MapModel.FindLayerDeterminedByMatching | src/shared/utils/openlayers/MapUtile.js:299-309 | The lookup's result depends only on where the `values_[key] === value` test succeeds. |
| MapModel.FindLayerPut | src/shared/utils/openlayers/MapUtile.js:298-311 | Replacing a layer by one with the same value under the key, the same class and the same children leaves every lookup by that key unchanged. |
| MapModel.RemoveFound | src/shared/utils/openlayers/MapUtile.js:639 | `removeLayer` of a found layer takes out exactly that top-level entry. A group child, or nothing, leaves the list as it was. |
| MapModel.AddFeature | src/shared/utils/openlayers/MapUtile.js:605 | `addFeature` of a feature new to the source appends it to the features, and the feature is then in the source. The listeners and `wrapX` are kept. |
| Seqs.Drop | src/shared/utils/openlayers/MapUtile.js:112 | Removal by identity: what remains holds exactly the elements whose identity is not in the set, and it is no longer than before. |
| Seqs.DropAppend | src/shared/utils/openlayers/MapUtile.js:111-117 | Removal distributes over concatenation, so what remains keeps the input's order. |
| MapUtilePure.CreateFeature | src/shared/utils/openlayers/MapUtile.js:550-581 | Throws exactly for a shape other than point/lineString/polygon. Otherwise it builds the geometry that matches the shape, with point the default. It keeps the name and coordinates, with `[]` the default, and uses the given style or else the default marker icon. |
| MapUtilePure.TrimStart | src/shared/utils/openlayers/MapUtile.js:809 | Removes a leading run of JavaScript whitespace and nothing else. |
| MapUtilePure.TrimEnd | src/shared/utils/openlayers/MapUtile.js:809 | Removes a trailing run of JavaScript whitespace and nothing else. |
| MapUtilePure.TrimPadding | src/shared/utils/openlayers/MapUtile.js:809 | `trim` of a text padded with whitespace on both sides is the text. |
| MapUtilePure.FindType | src/shared/utils/openlayers/MapUtile.js:808-809 | `find` returns a listed type whose name matches without regard to case, and nothing exactly when no listed name matches. |
| MapUtilePure.NamesDistinct | src/shared/utils/openlayers/MapUtile.js:808 | No text matches two of the six type names, so the order of the list never decides the result. |
| MapUtilePure.FindTypeMatching | src/shared/utils/openlayers/MapUtile.js:809 | A text that matches a type's name finds that type. |
| MapUtilePure.NormalizeDrawTypeMatches | src/shared/utils/openlayers/MapUtile.js:809 | The normalised type is `t` exactly when the trimmed text equals `t`'s name without regard to case. |
| MapUtilePure.NormalizeDrawTypeRoundTrip | src/shared/utils/openlayers/MapUtile.js:809 | A type's name with whitespace on either side normalises back to that type. |
| MapUtilePure.NormalizeDrawTypeDefault | src/shared/utils/openlayers/MapUtile.js:760 | An omitted type gives LineString. |
| MapUtilePure.NormalizeDrawTypeNull | src/shared/utils/openlayers/MapUtile.js:809 | A `null` type is not recognised. |
| MapUtilePure.CaseInsensitive | src/shared/utils/openlayers/MapUtile.js:809 | Two texts that differ only in letter case normalise alike. |
| MapUtilePure.ModeOf | src/shared/utils/openlayers/MapUtile.js:820-834 | Square and Box, and only they, carry a geometry function: `createRegularPolygon(4)` and `createBox()`. Circle, Square and Box draw in circle mode. |
| MapUtilePure.ModalRows | src/shared/utils/openlayers/MapUtile.js:1071-1074 | Given rows are kept. Without rows there are exactly two: a running total at "0.0" under key calc, a distance for LineString and an area otherwise, and the stop hint under key ing. |
| MapUtilePure.NewVectorLayer | src/shared/utils/openlayers/MapUtile.js:449-476 | Throws exactly for a falsy id. Otherwise the layer carries the id and zIndex, is visible unless told otherwise, and has the given source or else an empty one. |
| EngineModel.FoundIsVector | src/shared/utils/openlayers/MapUtile.js:112 | Under the invariant, a layer found under one of the engine's own ids has a source. |
| EngineModel.Replace | src/shared/utils/openlayers/MapUtile.js:805 | Restyling a layer, or flipping its visibility, in place keeps every lookup by id and the invariant on the layer list. |
| EngineModel.SetSource | src/shared/utils/openlayers/MapUtile.js:112 | Changing a vector layer's features keeps every lookup by id and the invariant. |
| EngineModel.Listen | src/shared/utils/openlayers/MapUtile.js:737 | Registers the handler on the source's `addfeature` event, changes nothing else about the layer, and keeps every lookup. |
| EngineModel.AppendLayer | src/shared/utils/openlayers/MapUtile.js:478 | `addLayer` appends: earlier lookups are kept, and a failed lookup now finds the new layer exactly when it matches. |
| EngineModel.RemoveLookedUp | src/shared/utils/openlayers/MapUtile.js:638-639 | Removes what the lookup by id found. Lookups of other ids still succeed, and the invariant is kept. |
| EngineModel.FeatureUids | src/shared/utils/openlayers/MapUtile.js:895 | The identities of a source's features, in order. |
| EngineSpec.Initial | src/shared/utils/openlayers/MapUtile.js:82-90 | A new engine holds the given map and layers, every handler slot empty and the draw record `{}`. Its overlays and interactions start empty: they stand for what the engine itself adds to the map. |
| EngineSpec.SetMap | src/shared/utils/openlayers/MapUtile.js:153-160 | Any argument but a built-in `Map` changes nothing. A built-in `Map` replaces `#map` and nulls exactly the two click slots and the pulse slot. |
| EngineSpec.SetZoom | src/shared/utils/openlayers/MapUtile.js:185-191 | Keeps the invariant; what it does to the zoom is stated in `EngineProperties.SetZoomNumber`. |
| EngineSpec.AddInteraction | src/shared/utils/openlayers/MapUtile.js:823 | `addInteraction` under a fresh identity keeps the invariant whenever the draw slot it sets has the draw layer on the map. |
| EngineSpec.SetClickCoordinate | src/shared/utils/openlayers/MapUtile.js:340-359 | Keeps the invariant; the slot discipline is in `EngineProperties.SetClickCoordinateSlot`. |
| EngineSpec.UnsetClickCoordinate | src/shared/utils/openlayers/MapUtile.js:380-389 | Keeps the invariant; the effect is in `EngineProperties.UnsetClickCoordinateRemoves`. |
| EngineSpec.SetClickGenerateMarker | src/shared/utils/openlayers/MapUtile.js:594-615 | Keeps the invariant; the slot discipline is in `EngineProperties.SetClickGenerateMarkerSlot`. |
| EngineSpec.UnsetClickGenerateMarker | src/shared/utils/openlayers/MapUtile.js:629-641 | Keeps the invariant; the effect is in `EngineProperties.UnsetClickGenerateMarkerLayer`. |
| EngineSpec.MarkerFeature | src/shared/utils/openlayers/MapUtile.js:605 | The marker is a point named "clickMarker" at the clicked coordinate, with the default marker icon. |
| EngineSpec.Ensure | src/shared/utils/openlayers/MapUtile.js:601-602 | Find-or-create. An existing layer is reused, with the list unchanged. A missing one is appended as a new vector layer. Either way the id is then found, every earlier lookup is kept, and the found layer has a source. |
| EngineSpec.AddMarker | src/shared/utils/openlayers/MapUtile.js:600-606 | Adding a marker keeps the invariant on the layers and the positions of the pulse and draw layers. That the marker lands in `clickMarkerLayer` is in `EngineProperties.MarkerClickAddsMarker`. |
| EngineSpec.MarkerClick | src/shared/utils/openlayers/MapUtile.js:600-606 | The marker listener changes only the layers and the identity counter, and keeps the invariant. Its effect on `clickMarkerLayer` is in `EngineProperties.MarkerClickAddsMarker`. |
| EngineSpec.Fire | src/shared/utils/openlayers/MapUtile.js:346-349 | One listener reacting to a click appends exactly its callback's call to the trace: `callback([lon, lat])` for the coordinate handler, none for the marker. |
| EngineSpec.Dispatch | src/shared/utils/openlayers/MapUtile.js:353-355 | The listeners reached by a click run in order and keep the invariant. |
| EngineSpec.DispatchStep | src/shared/utils/openlayers/MapUtile.js:353-355 | A dispatch is the first listener firing, then the rest. |
| EngineSpec.MapClick | src/shared/utils/openlayers/MapUtile.js:353-355 | A click reaches every listener registered at that time and keeps the invariant. |
| EngineSpec.CreateVectorLayer | src/shared/utils/openlayers/MapUtile.js:426-480 | Keeps the invariant when it succeeds; what it appends is in `EngineProperties.CreateVectorLayerAppends`. |
| EngineSpec.PulseLayers | src/shared/utils/openlayers/MapUtile.js:696-699 | After the first-pulse set-up, `pluseLayer` is on the map, the invariant holds, and the draw layer is where it was. |
| EngineSpec.PulseSetup | src/shared/utils/openlayers/MapUtile.js:694-737 | Keeps the invariant; the layer and listener it installs are in `EngineProperties.PulseSetupLayer`. |
| EngineSpec.PulseCycle | src/shared/utils/openlayers/MapUtile.js:676-690 | `addFeatureInterval` changes only the timers and the call trace. |
| EngineSpec.GeneratePulse | src/shared/utils/openlayers/MapUtile.js:669-740 | Success keeps the invariant. On the first call the layers and the pulse slot are those the set-up installs. |
| EngineSpec.GeneratePulseIs | src/shared/utils/openlayers/MapUtile.js:692-738 | A valid call is a fresh feature identity, then the set-up only when the slot is empty, then one add/remove cycle. |
| EngineSpec.PrepareDrawLayer | src/shared/utils/openlayers/MapUtile.js:765-805 | Changes only the layers. `drawFeatureLayer` is then on the map, with one layer added exactly when it was missing. |
| EngineSpec.StartDrawing | src/shared/utils/openlayers/MapUtile.js:807-836 | Keeps the invariant; the slot it fills is in `EngineProperties.StartDrawingSlot`. |
| EngineSpec.DrawEventFeature | src/shared/utils/openlayers/MapUtile.js:760-874 | Keeps the invariant; its effects are in the `EngineProperties.DrawEventFeature*` lemmas. |
| EngineSpec.RemoveDrawLayer | src/shared/utils/openlayers/MapUtile.js:893-902 | Keeps the invariant and an empty draw slot. |
| EngineSpec.EmptyDrawSlot | src/shared/utils/openlayers/MapUtile.js:904-912 | The draw record is `{}` afterwards, and the invariant holds. |
| EngineSpec.ClearDrawEventFeature | src/shared/utils/openlayers/MapUtile.js:891-913 | The draw record is `{}` afterwards, and the invariant holds. |
| EngineSpec.DrawStart | src/shared/utils/openlayers/MapUtile.js:838-841 | Keeps the invariant; the sketch and the start call are in `EngineProperties.DrawStartSketches`. |
| EngineSpec.DrawChange | src/shared/utils/openlayers/MapUtile.js:842-851 | Keeps the invariant; what is reported is in `EngineProperties.DrawChangeReports`. |
| EngineSpec.DrawEnd | src/shared/utils/openlayers/MapUtile.js:854-868 | Keeps the invariant; the teardown is in `EngineProperties.DrawEndTearsDown`. |
| EngineSpec.FinishDrawing | src/shared/utils/openlayers/MapUtile.js:1044-1048 | Keeps the invariant. What it does is in `EngineProperties.FinishDrawingEnds`: a line or polygon sketch first takes its final coordinates, which the drawing callback hears of, and then ends as on `drawend`; a point or circle sketch ends as on `drawend`; without a sketch nothing changes. |
| EngineSpec.SetSelect | src/shared/utils/openlayers/MapUtile.js:928-968 | Keeps the invariant; when it installs is in `EngineProperties.SetSelectInstalls`. |
| EngineSpec.UnsetSelect | src/shared/utils/openlayers/MapUtile.js:979-987 | Keeps the invariant; removing the Select interaction is in `EngineProperties.UnsetSelectRemoves` and `SetUnsetSelect`. |
| EngineSpec.SelectFeatures | src/shared/utils/openlayers/MapUtile.js:931-933 | Keeps the invariant. |
| EngineSpec.RemoveFeatures | src/shared/utils/openlayers/MapUtile.js:1124-1127 | Removing features from the draw layer keeps every lookup and the invariant. |
| EngineSpec.WithDrawFeatures | src/shared/utils/openlayers/MapUtile.js:111-112 | Replacing the draw layer's features keeps every lookup and the invariant. |
| EngineSpec.DeleteSelected | src/shared/utils/openlayers/MapUtile.js:106-118 | Keeps the invariant; the effect is in `EngineProperties.DeleteRemovesSelected`. |
| EngineSpec.KeyDown | src/shared/utils/openlayers/MapUtile.js:104-122 | Keeps the invariant; the Delete and Backspace keys are in `EngineProperties.DeleteRemovesSelected` and `DeleteWithoutSelect`. That Escape finishes the drawing is in `EngineProperties.EscapeAndContextMenuFinish`, and every other key is in `KeyDownOther`. |
| EngineSpec.ContextMenu | src/shared/utils/openlayers/MapUtile.js:125-128 | Keeps the invariant; that a right-click is exactly `finishDrawing` is in `EngineProperties.EscapeAndContextMenuFinish`, and what that does is in `FinishDrawingEnds`. |
| EngineSpec.CreateOverlay | src/shared/utils/openlayers/MapUtile.js:1107-1131 | Keeps the invariant; the popup it adds is in `EngineProperties.CreateOverlayDeleteRoundTrip`. |
| EngineSpec.MovedTo | src/shared/utils/openlayers/MapUtile.js:1135 | Exactly the overlay with that identity gets the new position; every other overlay stays as it was. |
| EngineSpec.MoveOverlay | src/shared/utils/openlayers/MapUtile.js:1133-1136 | Keeps the invariant. |
| EngineSpec.DeletePopup | src/shared/utils/openlayers/MapUtile.js:1120-1128 | Keeps the invariant; removing the popup and its linked feature is in `EngineProperties.DeletePopupRemoves`. |
| EngineProperties.SetClickCoordinateSlot | src/shared/utils/openlayers/MapUtile.js:340-359 | An occupied slot makes the call a no-op. On an empty slot exactly one listener is registered, under an identity no listener has. The slot holds it unless `once` is set, in which case the slot stays null. |
| EngineProperties.SetClickCoordinateTwice | src/shared/utils/openlayers/MapUtile.js:341-344 | A second registration after a lasting one changes nothing: no duplicate handlers. |
| EngineProperties.SetUnsetClickCoordinate | src/shared/utils/openlayers/MapUtile.js:340-389 | Set then unset restores the engine, except for the identity used up. |
| EngineProperties.UnsetClickCoordinateIdempotent | src/shared/utils/openlayers/MapUtile.js:380-389 | Unset on an empty slot is a no-op, and unsetting twice is the same as once. |
| EngineProperties.UnsetClickCoordinateRemoves | src/shared/utils/openlayers/MapUtile.js:386-387 | An occupied slot is nulled, and exactly its listener leaves the map. |
| EngineProperties.SetClickGenerateMarkerSlot | src/shared/utils/openlayers/MapUtile.js:594-615 | The same slot discipline as the coordinate handler: no-op while occupied, one fresh listener otherwise, slot left null with `once`. |
| EngineProperties.SetUnsetClickGenerateMarker | src/shared/utils/openlayers/MapUtile.js:594-641 | Set then unset, keeping the layer, restores the engine except for the identity used up. |
| EngineProperties.MarkerClickAddsMarker | src/shared/utils/openlayers/MapUtile.js:600-606 | After a marker click, `clickMarkerLayer` is found and is a vector layer. It was appended, holding only the marker, exactly when it was missing. Otherwise the marker joins the end of its features, unless a feature with the same identity was there. Every earlier lookup is kept. The order is that of the model's feature list; OpenLayers' `getFeatures()` does not promise insertion order. |
| EngineProperties.UnsetClickGenerateMarkerLayer | src/shared/utils/openlayers/MapUtile.js:629-641 | An empty slot is a no-op even with the flag. Otherwise the slot is nulled. Without the flag the layers stay; with it, a top-level `clickMarkerLayer` is removed and nothing else. |
| EngineProperties.OnceUidsCons | src/shared/utils/openlayers/MapUtile.js:350-352 | The `once` listeners of a list are those of its head and of its tail. |
| EngineProperties.DispatchListeners | src/shared/utils/openlayers/MapUtile.js:350-352 | A click unregisters exactly the `once` listeners it reaches. |
| EngineProperties.DispatchCalls | src/shared/utils/openlayers/MapUtile.js:346-349 | A click calls every reached coordinate callback with the clicked coordinate, in registration order. |
| EngineProperties.MapClickOnce | src/shared/utils/openlayers/MapUtile.js:350-352 | A `once` listener is gone after the first click. |
| EngineProperties.CreateVectorLayerAppends | src/shared/utils/openlayers/MapUtile.js:449-479 | Throws exactly for a falsy id and then changes nothing. Otherwise it appends exactly one vector layer carrying the id, empty unless a source was given. Earlier layers and every other part of the engine are unchanged. |
| EngineProperties.CreateVectorLayerFound | src/shared/utils/openlayers/MapUtile.js:478-479 | When no layer had the id, the lookup now finds the new layer at the end of the list. |
| EngineProperties.GeneratePulseFails | src/shared/utils/openlayers/MapUtile.js:670 | Throws exactly when the geometry is missing or has fewer than two ordinates. |
| EngineProperties.PulseSetupLayer | src/shared/utils/openlayers/MapUtile.js:694-737 | The first pulse installs the handler. `pluseLayer` is reused if present, or else created with zIndex 999. It gets the handler on its `addfeature` listeners, and every other layer is unchanged. |
| EngineProperties.GeneratePulseReuse | src/shared/utils/openlayers/MapUtile.js:692-693 | Later pulses keep the layers, the pulse slot and the listeners. |
| EngineProperties.GeneratePulseSchedule | src/shared/utils/openlayers/MapUtile.js:680-689 | Each pulse adds one interval of `timeout` ms, cleared after `timeout*(count-1)` ms. A function callback is called at once, before any interval fires. |
| EngineProperties.GeneratePulseDefaults | src/shared/utils/openlayers/MapUtile.js:669 | With the defaults count 3 and timeout 400, the interval is cleared after 800 ms. |
| EngineProperties.StartDrawingSlot | src/shared/utils/openlayers/MapUtile.js:809-835 | The slot takes the normalised type, and a Draw interaction exists exactly for a recognised type, in the mode `ModeOf` gives. An unrecognised type fails. Only the interactions, the counter and the slot change. |
| EngineProperties.DrawEventFeatureSlot | src/shared/utils/openlayers/MapUtile.js:807-836 | On an empty slot: the slot holds the normalised type, with a session exactly for a recognised type, and failure exactly for an unrecognised one. |
| EngineProperties.DrawEventFeatureLayer | src/shared/utils/openlayers/MapUtile.js:765-766 | Whatever the slot holds, `drawFeatureLayer` is afterwards on the map, added exactly when it was missing. |
| EngineProperties.DrawEventFeatureOccupied | src/shared/utils/openlayers/MapUtile.js:807-873 | While drawing, another call keeps the slot, its type and the interactions. |
| EngineProperties.DrawEventFeatureType | src/shared/utils/openlayers/MapUtile.js:808-811 | The slot's type is `t` exactly when the trimmed text matches `t`'s name without regard to case. An unrecognised type still occupies the slot, with no type, and fails. |
| EngineProperties.DrawEventFeatureDefault | src/shared/utils/openlayers/MapUtile.js:760 | Without a type the session draws LineStrings. |
| EngineProperties.DrawEndTearsDown | src/shared/utils/openlayers/MapUtile.js:854-868 | On drawend: the end callback is called; the session's interactions leave the map and the slot empties; the draw layer stays and holds the finished feature; the popups stay. |
| EngineProperties.ClearDrawKeepsLayer | src/shared/utils/openlayers/MapUtile.js:904-912 | Without the flag, clearing removes only the session's interactions and empties the slot. Layers and popups stay, and a second clear changes nothing. |
| EngineProperties.ClearDrawRemovesLayer | src/shared/utils/openlayers/MapUtile.js:893-901 | With the flag, clearing removes exactly the popups of the draw layer's features and then the top-level draw layer. |
| EngineProperties.DrawStartSketches | src/shared/utils/openlayers/MapUtile.js:838-841 | `drawstart` gives the session a sketch under a fresh identity, with the mode's geometry kind: a polygon for Square and Box, a circle for Circle. A function start callback is called with the feature. Nothing else changes. |
| EngineProperties.DrawChangeReports | src/shared/utils/openlayers/MapUtile.js:842-851 | A geometry change updates the sketch. The drawing callback is called exactly when the sketch is a LineString or Polygon and the callback is a function; points and circles report nothing. Nothing else changes. |
| EngineProperties.FinishDrawingEnds | src/shared/utils/openlayers/MapUtile.js:1044-1048 | Without a sketch, `finishDrawing` changes nothing. With one, the slot empties and the popups stay. In line and polygon mode the result is a geometry change to the final coordinates followed by `drawend`: the calls gain the drawing callback's call (for a line or polygon geometry), then the end callback's call. In point and circle mode the result is `drawend` alone, and the calls gain only the end callback's call. |
| EngineProperties.ChangeThenEnd | src/shared/utils/openlayers/MapUtile.js:842-868 | A geometry change followed by `drawend` empties the slot, keeps the popups, and appends the drawing callback's call (for a line or polygon geometry) and then the end callback's call. |
| EngineProperties.EscapeAndContextMenuFinish | src/shared/utils/openlayers/MapUtile.js:104-128 | The Escape key and the context menu on the map element are each exactly `finishDrawing`. |
| EngineProperties.KeyDownOther | src/shared/utils/openlayers/MapUtile.js:104-122 | Keys other than Delete, Backspace and Escape change nothing. |
| EngineProperties.SetSelectInstalls | src/shared/utils/openlayers/MapUtile.js:928-987 | A handler with an empty selection is installed exactly when `drawFeatureLayer` exists and no handler is installed. Unset empties the slot. |
| EngineProperties.UnsetSelectRemoves | src/shared/utils/openlayers/MapUtile.js:979-987 | With a handler: exactly the Select interaction leaves the map's interactions, the slot empties, and nothing else changes. Without one: nothing happens. |
| EngineProperties.SetUnsetSelect | src/shared/utils/openlayers/MapUtile.js:928-987 | Set then unset restores the interactions and the empty slot; only the identity used up stays spent. |
| EngineProperties.DeleteWithoutSelect | src/shared/utils/openlayers/MapUtile.js:105-107 | Delete or Backspace without a select handler changes nothing. |
| EngineProperties.DeleteRemovesSelected | src/shared/utils/openlayers/MapUtile.js:105-118 | With a selection, the keys remove exactly the selected features from the draw source and exactly their popups from the map, then empty the selection. The draw layer stays where it was. |
| EngineProperties.SetMapSlots | src/shared/utils/openlayers/MapUtile.js:153-160 | Only a built-in `Map` is taken. It nulls the two click slots and the pulse slot, but keeps the draw and select slots and the registered listeners and interactions. |
| EngineProperties.SetZoomNumber | src/shared/utils/openlayers/MapUtile.js:185-191 | A number is handed to `setZoom` unchanged. Another value goes through `Number`, and a NaN is dropped. Nothing but the zoom changes. |
| EngineProperties.CreateOverlayDeleteRoundTrip | src/shared/utils/openlayers/MapUtile.js:1107-1128 | One popup is added at the coordinate with offset (2, 2) and the two default rows. Its delete button removes it again, restoring the overlays. |
| EngineProperties.CreateOverlayLinks | src/shared/utils/openlayers/MapUtile.js:1115 | A popup made for a feature is what the feature's `popup` points to. |
| EngineProperties.DeletePopupRemoves | src/shared/utils/openlayers/MapUtile.js:1120-1128 | Exactly that popup leaves the map. With a linked feature and `drawFeatureLayer` present, exactly that feature leaves the layer's source; otherwise the layers are unchanged. Every lookup is kept, and nothing else changes. |
| EngineProperties.MoveOverlayMoves | src/shared/utils/openlayers/MapUtile.js:1133-1136 | Without an overlay nothing changes. Otherwise exactly that popup moves, and no other. |
| MapUtileEngine.MapUtile.constructor | src/shared/utils/openlayers/MapUtile.js:82-90 | The fields start at `EngineSpec.Initial`, and `Valid()` holds. |
| MapUtileEngine.MapUtile.NewUid | src/shared/utils/openlayers/MapUtile.js:701 | Hands out the next identity and changes nothing else. |
| MapUtileEngine.MapUtile.SetLayers | src/shared/utils/openlayers/MapUtile.js:478 | The layer list becomes the given one, and nothing else changes. |
| MapUtileEngine.MapUtile.GetFindLayer | src/shared/utils/openlayers/MapUtile.js:298-311 | Requires an OpenLayers map, since `getLayers` on anything else throws. Returns `MapModel.FindLayer` of the current layers and changes nothing. |
| MapUtileEngine.MapUtile.SetMap | src/shared/utils/openlayers/MapUtile.js:153-160 | The state becomes `EngineSpec.SetMap` of the old one; `Valid()` is kept. |
| MapUtileEngine.MapUtile.SetZoom | src/shared/utils/openlayers/MapUtile.js:185-191 | The state becomes `EngineSpec.SetZoom` of the old one; `Valid()` is kept. |
| MapUtileEngine.MapUtile.SetClickCoordinate | src/shared/utils/openlayers/MapUtile.js:340-359 | The state becomes `EngineSpec.SetClickCoordinate` of the old one; `Valid()` is kept. |
| MapUtileEngine.MapUtile.UnsetClickCoordinate | src/shared/utils/openlayers/MapUtile.js:380-389 | The state becomes `EngineSpec.UnsetClickCoordinate` of the old one; `Valid()` is kept. |
| MapUtileEngine.MapUtile.SetClickGenerateMarker | src/shared/utils/openlayers/MapUtile.js:594-615 | The state becomes `EngineSpec.SetClickGenerateMarker` of the old one; `Valid()` is kept. |
| MapUtileEngine.MapUtile.UnsetClickGenerateMarker | src/shared/utils/openlayers/MapUtile.js:629-641 | The state becomes `EngineSpec.UnsetClickGenerateMarker` of the old one; `Valid()` is kept. |
| MapUtileEngine.MapUtile.MarkerClick | src/shared/utils/openlayers/MapUtile.js:600-606 | The state becomes `EngineSpec.MarkerClick` of the old one; `Valid()` is kept. So `EngineProperties.MarkerClickAddsMarker` holds of the object. |
| MapUtileEngine.MapUtile.Fire | src/shared/utils/openlayers/MapUtile.js:346-349 | The state becomes `EngineSpec.Fire` of the old one; `Valid()` is kept. |
| MapUtileEngine.MapUtile.MapClick | src/shared/utils/openlayers/MapUtile.js:353-355 | Firing each listener registered at the click, in a loop, takes the state to `EngineSpec.MapClick`; `Valid()` is kept. |
| MapUtileEngine.MapUtile.CreateVectorLayer | src/shared/utils/openlayers/MapUtile.js:426-480 | Returns the layer `NewVectorLayer` builds, or its error. On success the state becomes `EngineSpec.CreateVectorLayer`; on failure nothing changes. |
| MapUtileEngine.MapUtile.PulseSetup | src/shared/utils/openlayers/MapUtile.js:694-737 | The state becomes `EngineSpec.PulseSetup` of the old one; `Valid()` is kept. |
| MapUtileEngine.MapUtile.GeneratePulse | src/shared/utils/openlayers/MapUtile.js:669-740 | A missing or short geometry fails with nothing changed. Otherwise the state becomes `EngineSpec.GeneratePulse` of the old one. |
| MapUtileEngine.MapUtile.PulseCycle | src/shared/utils/openlayers/MapUtile.js:676-690 | The state becomes `EngineSpec.PulseCycle` of the old one; `Valid()` is kept. |
| MapUtileEngine.MapUtile.PrepareDrawLayer | src/shared/utils/openlayers/MapUtile.js:765-805 | The state becomes `EngineSpec.PrepareDrawLayer` of the old one; `Valid()` is kept. |
| MapUtileEngine.MapUtile.Register | src/shared/utils/openlayers/MapUtile.js:823 | The state becomes `EngineSpec.AddInteraction` of the old one; `Valid()` is kept. |
| MapUtileEngine.MapUtile.StartDrawing | src/shared/utils/openlayers/MapUtile.js:807-836 | The state and the outcome are those of `EngineSpec.StartDrawing`. |
| MapUtileEngine.MapUtile.DrawEventFeature | src/shared/utils/openlayers/MapUtile.js:760-874 | The state and the outcome are those of `EngineSpec.DrawEventFeature`. |
| MapUtileEngine.MapUtile.RemoveDrawLayer | src/shared/utils/openlayers/MapUtile.js:893-902 | Removing the popups of the layer's features in a loop, then the layer, takes the state to `EngineSpec.RemoveDrawLayer`. |
| MapUtileEngine.MapUtile.EmptyDrawSlot | src/shared/utils/openlayers/MapUtile.js:904-912 | The state becomes `EngineSpec.EmptyDrawSlot` of the old one; `Valid()` is kept. |
| MapUtileEngine.MapUtile.ClearDrawEventFeature | src/shared/utils/openlayers/MapUtile.js:891-913 | The state becomes `EngineSpec.ClearDrawEventFeature` of the old one; `Valid()` is kept. |
| MapUtileEngine.MapUtile.DrawStart | src/shared/utils/openlayers/MapUtile.js:838-841 | The state becomes `EngineSpec.DrawStart` of the old one; `Valid()` is kept. So `EngineProperties.DrawStartSketches` holds of the object. |
| MapUtileEngine.MapUtile.DrawChange | src/shared/utils/openlayers/MapUtile.js:842-851 | The state becomes `EngineSpec.DrawChange` of the old one; `Valid()` is kept. So `EngineProperties.DrawChangeReports` holds of the object. |
| MapUtileEngine.MapUtile.DrawEnd | src/shared/utils/openlayers/MapUtile.js:854-868 | The state becomes `EngineSpec.DrawEnd` of the old one; `Valid()` is kept. |
| MapUtileEngine.MapUtile.FinishDrawing | src/shared/utils/openlayers/MapUtile.js:1044-1048 | The state becomes `EngineSpec.FinishDrawing` of the old one, given the sketch's final coordinates; `Valid()` is kept. So `EngineProperties.FinishDrawingEnds` holds of the object: the drawing callback's last call for a line or polygon, then `drawend`. |
| MapUtileEngine.MapUtile.SetSelect | src/shared/utils/openlayers/MapUtile.js:928-968 | The state becomes `EngineSpec.SetSelect` of the old one; `Valid()` is kept. |
| MapUtileEngine.MapUtile.UnsetSelect | src/shared/utils/openlayers/MapUtile.js:979-987 | The state becomes `EngineSpec.UnsetSelect` of the old one; `Valid()` is kept. So `EngineProperties.UnsetSelectRemoves` holds of the object. |
| MapUtileEngine.MapUtile.SelectFeatures | src/shared/utils/openlayers/MapUtile.js:931-933 | The state becomes `EngineSpec.SelectFeatures` of the old one; `Valid()` is kept. |
| MapUtileEngine.MapUtile.DeleteSelected | src/shared/utils/openlayers/MapUtile.js:106-118 | Removing the selected features and their popups in a loop, then clearing the selection, takes the state to `EngineSpec.DeleteSelected`. |
| MapUtileEngine.MapUtile.KeyDown | src/shared/utils/openlayers/MapUtile.js:104-122 | The state becomes `EngineSpec.KeyDown` of the old one; `Valid()` is kept. So `EngineProperties.DeleteRemovesSelected`, `DeleteWithoutSelect`, `EscapeAndContextMenuFinish` with `FinishDrawingEnds`, and `KeyDownOther` hold of the object. |
| MapUtileEngine.MapUtile.ContextMenu | src/shared/utils/openlayers/MapUtile.js:125-128 | The state becomes `EngineSpec.ContextMenu` of the old one; `Valid()` is kept. So `EngineProperties.EscapeAndContextMenuFinish` and `FinishDrawingEnds` hold of the object. |
| MapUtileEngine.MapUtile.CreateOverlay | src/shared/utils/openlayers/MapUtile.js:1107-1131 | The state and the returned popup are those of `EngineSpec.CreateOverlay`. |
| MapUtileEngine.MapUtile.MoveOverlay | src/shared/utils/openlayers/MapUtile.js:1133-1136 | The state becomes `EngineSpec.MoveOverlay` of the old one; `Valid()` is kept. |
| MapUtileEngine.MapUtile.DeletePopup | src/shared/utils/openlayers/MapUtile.js:1120-1128 | The state becomes `EngineSpec.DeletePopup` of the old one; `Valid()` is kept. So `EngineProperties.DeletePopupRemoves` holds of the object. |
| MapUtileEngine.RemovePopups | src/shared/utils/openlayers/MapUtile.js:895-898 | The loop over the features removes exactly the overlays that are their popups. |
| MapUtileEngine.RemoveSelected | src/shared/utils/openlayers/MapUtile.js:111-117 | The loop over the selection removes exactly the selected features and exactly their popups. |
| VworldMap.ProxyPrefix | src/shared/utils/openlayers/MapTile/VworldMap.js:13 | A falsy proxy gives the empty string, and a string proxy is used as it is. |
| VworldMap.SourceSelection | src/shared/utils/openlayers/MapTile/VworldMap.js:14-15 | SATELLITE gives jpeg and Satellite. Every other or missing type gives png and Base. The extension and the segment always agree. |
| VworldMap.ProxyIsPrefix | src/shared/utils/openlayers/MapTile/VworldMap.js:13-19 | The URL is the proxy followed by the direct URL, and a falsy proxy adds nothing. |
| VworldMap.UrlEndsWithExtension | src/shared/utils/openlayers/MapTile/VworldMap.js:14-19 | The URL ends in a dot and the selected extension. |
| VworldMap.VworldSource | src/shared/utils/openlayers/MapTile/VworldMap.js:17-21 | An XYZ source with that URL, crossOrigin "Anonymous" and maxZoom 19. |
| VworldMap.CreateVworldTileGroup | src/shared/utils/openlayers/MapTile/VworldMap.js:25-57 | Pushing the two layers onto a fresh group yields `VworldTileGroup()`. |
| VworldMap.VworldTileGroupLayout | src/shared/utils/openlayers/MapTile/VworldMap.js:27-54 | The group has id vworldTileGroup and its name, and exactly two children: `vworld2D` (BASE, visible) then `vworldSatellite` (SATELLITE, hidden). |
| VworldMap.VworldGroupLookup | src/shared/utils/openlayers/MapTile/VworldMap.js:48-54 | Added to a map without base maps, the lookup finds `vworld2D` as the group's first child and `vworldSatellite` as its second, never the group. |
| MapLayerControl.SetVisibleFound | src/features/Openlayers/MapLayerControl/ui/MapLayerControl.jsx:10-14 | `setVisible(v)` on the found layer and on nothing else. A missing id changes nothing. Every lookup and the invariant are kept. |
| MapLayerControl.ToggleFound | src/features/Openlayers/MapLayerControl/ui/MapLayerControl.jsx:19-20 | Flipping a layer's flag keeps every lookup and the invariant. |
| MapLayerControl.InvWithSameLookups | src/features/Openlayers/MapLayerControl/ui/MapLayerControl.jsx:11-20 | A visibility change that keeps every lookup keeps the engine's invariant. |
| MapLayerControl.SetFoundVisible | src/features/Openlayers/MapLayerControl/ui/MapLayerControl.jsx:9-10 | With the engine holding an OpenLayers map, the layers become `SetVisibleFound` of the old ones: only the layer found by id gets the flag, and nothing else changes. `Valid()` is kept. |
| MapLayerControl.MapLayerChange | src/features/Openlayers/MapLayerControl/ui/MapLayerControl.jsx:6-15 | No engine: nothing happens. Otherwise, with the engine holding an OpenLayers map, the layers become `LayerChange` of the old ones, nothing else changes, and `Valid()` is kept. |
| MapLayerControl.ItsMapOnOff | src/features/Openlayers/MapLayerControl/ui/MapLayerControl.jsx:17-21 | No engine: nothing happens. Otherwise, with the engine holding an OpenLayers map, the layers become `ToggleFound` of the old ones for `trafficConfusion`, nothing else changes, and `Valid()` is kept. |
| MapLayerControl.ReplaceElsewhere | src/features/Openlayers/MapLayerControl/ui/MapLayerControl.jsx:11-20 | A layer's `setVisible` changes no other layer's flag, and no other layer except a group holding it. |
| MapLayerControl.DistinctIdsDistinctPaths | src/shared/utils/openlayers/MapUtile.js:298-311 | Different ids find different layers. |
| MapLayerControl.SetVisibleElsewhere | src/features/Openlayers/MapLayerControl/ui/MapLayerControl.jsx:10-14 | Showing or hiding a found layer leaves every other layer's flag alone. |
| MapLayerControl.LayerChangeEffect | src/features/Openlayers/MapLayerControl/ui/MapLayerControl.jsx:9-14 | The layer under `invisible` ends hidden, and the one under `visible` ends shown unless the ids coincide. Missing ids are skipped. No other flag changes, and every lookup is kept. |
| MapLayerControl.PutBack | src/features/Openlayers/MapLayerControl/ui/MapLayerControl.jsx:20 | Putting back the layer that was at a path undoes a replacement there. |
| MapLayerControl.ToggleFoundEffect | src/features/Openlayers/MapLayerControl/ui/MapLayerControl.jsx:19-20 | The found layer's flag is negated, and a missing layer changes nothing. No other flag changes. Toggling twice restores the layer list. |
| MapLayerControl.VworldGroupShowsOne | src/shared/utils/openlayers/MapTile/VworldMap.js:34-45 | A map given the vworld group shows exactly one base map: the 2D one. |
| MapLayerControl.BaseMapButtons | src/features/Openlayers/MapLayerControl/ui/MapLayerControl.jsx:30-34 | Whenever both base maps are present, the normal-map button leaves exactly `vworld2D` shown, and the satellite button exactly `vworldSatellite`. |
| MapLayerControl.TrafficKeepsBaseMap | src/features/Openlayers/MapLayerControl/ui/MapLayerControl.jsx:17-21 | The traffic button keeps exactly one base map shown, the same one. |
| MapLayerControl.TrafficLayerOnOff | src/shared/utils/openlayers/MapTile/ItsTileMap.js:7-20 | The traffic layer starts hidden and is found at the end of the map. The first press shows it, and the second restores the list. |
| ThemeSlice.InitialTheme | src/app/providers/slices/createThemeSlice.js:2 | The initial theme is "light". |
| ThemeSlice.Merge | src/app/providers/slices/createThemeSlice.js:4-6 | `set` replaces or adds the given keys and keeps every other key. |
| ThemeSlice.SetThemeStores | src/app/providers/slices/createThemeSlice.js:4 | `setTheme(t)` stores exactly `t` and touches no other key. |
| ThemeSlice.ToggleThemeEffect | src/app/providers/slices/createThemeSlice.js:5-8 | "light" becomes "dark"; any other value, a missing one included, becomes "light". The result is always light or dark, and no other key changes. |
| ThemeSlice.ToggleTwice | src/app/providers/slices/createThemeSlice.js:7 | From light or dark, two toggles restore the store. |
| ThemeSlice.ToggleTwiceOther | src/app/providers/slices/createThemeSlice.js:7 | From any other theme, two toggles end on dark. |

## Left out

- Pulse rendering (MapUtile.js:701-735): the `easeOut` radius and opacity, the `postrender` drawing and `Date.now()`. This is floating point and a library render loop. Only the layer, the listener, the timer and the callback are modelled.
- Real timers. `setInterval`/`setTimeout` are a `PulseTimer` holding the period and the stop delay; the repeated add/remove of the pulse feature inside the interval is not modelled.
- The pulse feature's add/remove pair at MapUtile.js:677-678 leaves the source as it was, so the model does not change the source for it.
- `getMeter`/`getSquareMeter`, `epsgTransform`/`moveTo` and projection.js: geodesic and projection arithmetic in foreign floating-point libraries.
- `createAsyncVectorLayer`: network loading. Its only state effect on failure is internal to the library.
- The DOM built by `createModal` and the element removal in the delete button: only the two default rows are kept as data.
- The DOM side of the map element's handlers: `tabIndex`, focus on click and `preventDefault` on the context menu. What the handlers do to the engine is modelled (`KeyDown`, `ContextMenu`).
- Style objects, and the internals of the `Snap`, `Draw` and `Select` interactions. Styles are tags, and a select handler's selection is a list of feature identities.
- The measures passed to the drawing callbacks (length and area) and the `console.log` messages.
- Floating point: coordinates are `real`, zoom values are finite reals, infinities or NaN, and JavaScript number conversion is an input (`OtherZoomArg.asNumber`).
- Layer aliasing. Layers are values reached by path, so a layer object held elsewhere and mutated later is not modelled.
- The OpenLayers click dispatch loop belongs to the library. `MapClick` runs each listener registered at the moment of the click.
- Callbacks are function ids. A callback that throws, or one that re-enters the engine, is not modelled.
- EngineSpec.Initial: requires the same of its layers as the constructor below, for the same reason, and likewise does not model the missing-target throw.
- MapUtileEngine.MapUtile.constructor: requires that no tile layer, and no group child other than a vector layer, already carries one of the engine's ids. The source does not check this. Without it, `getSource()` on a found tile layer would fail later.
- MapUtileEngine.MapUtile.constructor: does not model the `TypeError` for a map without a target element. MapUtile.js:104 calls `addEventListener` on the target outside the `if (mapEl)` guard at line 92, so `new MapUtile(map)` throws there. The model's engine always has its key and context-menu handlers.
- MapModel.AddFeature: a feature whose identity is already in the source leaves the source unchanged, where OpenLayers' `addFeature` fails an assertion and throws. The engine adds only features it has just created (the marker, the finished sketch), which in JavaScript are new objects. The model's identities cannot express that newness for features of the initial layers.
- `moveOverlay(null, ...)` and a non-string draw type: in the source, `overlay.setPosition` on `null` throws, and `type?.trim` on a number throws. The model's `Option` overlay and `DrawTypeArg` cannot express these inputs.
- EngineSpec.ClearDrawEventFeature: empties the draw slot before it removes the layer, the reverse of MapUtile.js:893-908. The two steps touch disjoint parts of the state, so the result is the same, and the invariant holds between them.
- EngineSpec.DeleteSelected: requires `CanDelete`. With a select handler installed, `#map` must be an OpenLayers map, and with a non-empty selection `drawFeatureLayer` must be on it (MapUtile.js:110-112). Otherwise the source throws a `TypeError` in the listener.
- EngineSpec.KeyDown: requires `CanDelete` for Delete and Backspace, for the reason given for `DeleteSelected`.
- The base-map buttons' `data-map-name` JSON parsing (MapLayerControl.jsx:9) is not modelled: the handler takes the two ids as strings, as the buttons at lines 30 and 34 supply them.
- MapUtilePure.NewVectorLayer: the layer keeps only `id`, `zIndex`, `visible` and the source. `createVectorLayer` (MapUtile.js:449-473) also hands `opacity`, `style`, `properties`, the zoom and resolution bounds and the other options to `new VectorLayer`. OpenLayers stores these, with its defaults (opacity 1, minResolution 0, maxResolution Infinity), among the values `getFindLayer` tests. So a lookup by one of those keys can find a created layer in the source and nothing in the model, and a given `style` becomes the default style. The engine and the layer controls look layers up by `id` only.
- VworldMap.ProxyPrefix: a truthy non-string proxy is written out by `Text`, which writes numbers as integers only.
- EngineSpec.FinishDrawing: the final coordinates of a line or polygon sketch are a parameter. How OpenLayers' Draw interaction derives them is not modelled: it drops the point that follows the pointer and, for a polygon, closes the ring through the geometry function.
- EngineSpec.Initial: the interactions a default OpenLayers map carries (drag-pan, zoom and the like) are not in the model. The engine removes only interactions and overlays it added itself, so those defaults would be left untouched.
