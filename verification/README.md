# Map viewer view-state and control logic, in Dafny

This project models the small self-contained rule sets inside the map
viewer `main-0fd1b777.js`. That is a browser page that shows a tiled image
of a game world on a Leaflet map, with marker overlays for train stations,
tags and debug points. It keeps the camera and the visible overlays in the
page's query string. Two bundled plugins are modelled as well: a box-zoom
control and a vertical zoom slider.

Numbers are Dafny `real`. Strings are `seq<char>`. The query string is a
`map<string, string>`. Leaflet's side effects become fields of immutable
state records, and every operation is a pure function over them.

- `manifest.dfy` (`Manifest`): the `mapshot.json` record (render and tile
  size, zoom range, world corners, optional player, stations and tags).
- `geo.dfy` (`Geo`): `worldToLatLng` / `latLngToWorld` (y flips sign, scale
  `render_size / tile_size`) and the bounding-box midpoint.
- `layers.dfy` (`Layers`): station, tag and debug markers, the three
  overlays, and the layer-to-key registry (`lt`, `lg`, `ld`).
- `view_state.dfy` (`ViewState`): `parseNumber`, base-path selection and
  normalisation, the startup camera, the startup pass over the overlay
  parameters, `onViewChange` and `onLayerChange`.
- `box_zoom.dfy` (`BoxZoom`): the ON/OFF control, its event subscriptions,
  and the geometry of the patched mouse-move and mouse-up handlers.
- `zoomslider.dfy` (`Zoomslider`): the knob's linear value-to-offset map
  and clamping, and the slider's zoom-level mapping, resizing and button
  dimming.

JavaScript's `Number()` is the function parameter `num` (`None` stands for
`NaN`). `toFixed(1)` is the parameter `fixed`. Number-to-string in marker
titles is `show`. Leaflet's `layerPointToLatLng` is `project`.

Points where the code's behaviour is easy to misread; the model follows the code:

- A tag marker's permanent tooltip is the tag's text alone. The
  `force: text` string is the marker's title, not its tooltip
  (main-0fd1b777.js:533).
- `parseNumber` of a missing parameter returns 0 whatever the default,
  because `Number(null)` is 0. Every caller passes 0 as the default, so the
  viewer behaves the same either way.
- An empty `path` parameter is used as the path (`??` only skips `null`
  and `undefined`). It does not fall back to the configured default.
- `onLayerChange` treats a layer registered under the empty key like an
  unknown layer (`!key`).
- The patched mouse-up handler measures the box with `offsetWidth` and
  `offsetHeight`, which include the box's border. With any border the two
  corners differ, so its early return for an empty box applies only to a
  borderless box (main-0fd1b777.js:162-165).

## Model

| member | source | states |
|---|---|---|
| Geo.WorldToLatLng | main-0fd1b777.js:484-487 | latitude is minus y times `render_size/tile_size`, longitude is x times that ratio |
| Geo.LatLngToWorld | main-0fd1b777.js:488-494 | the world point, scaled back up by the ratio, gives the map point's longitude and minus its latitude |
| Geo.MidPointToLatLng | main-0fd1b777.js:495-497 | the projected centre of a box is the midpoint of its two projected corners |
| Geo.WorldRoundTrip | main-0fd1b777.js:484-494 | for non-zero sizes, `latLngToWorld(worldToLatLng(x, y)) == (x, y)` exactly |
| Geo.LatLngRoundTrip | main-0fd1b777.js:484-494 | for non-zero sizes, `worldToLatLng(latLngToWorld(l)) == l` exactly |
| Geo.WorldToLatLngInjective | main-0fd1b777.js:484-487 | distinct world points project to distinct map points |
| Geo.WorldToLatLngOrientation | main-0fd1b777.js:484-487 | for a positive ratio, larger world y means smaller latitude and larger world x means larger longitude (both directions) |
| Geo.MidPointIsCentre | main-0fd1b777.js:495-497 | the station marker position maps back to the world centre of the bounding box |
| Geo.WorldMaxCornerExample | main-0fd1b777.js:498-500 | world corner (100, 200) at ratio 1 is the map corner (lat -200, lng 100) |
| Layers.StationMarkers | main-0fd1b777.js:521-527 | one marker per station, in order, at the box's projected centre, titled and permanently tooltipped with the backer name; none when the field is missing or not iterable |
| Layers.TagMarkers | main-0fd1b777.js:529-535 | one marker per tag, in order, at its projected position, titled `force: text` with a permanent tooltip of the text; none when missing or not iterable |
| Layers.DebugMarkers | main-0fd1b777.js:537-544 | six markers with a player, five without: origin first, then the player, then the four world corners in the min/min, min/max, max/min, max/max order |
| Layers.StartMarkerAtWorldOrigin | main-0fd1b777.js:538-540 | the `[0, 0]` start marker is the projection of world point (0, 0) |
| Layers.CornersDistinct | main-0fd1b777.js:544 | the four corner markers sit on four distinct map points exactly when the world has non-zero extent on both axes |
| Layers.BuildOverlays | main-0fd1b777.js:521-545 | three overlays: `lt` "Train stations", `lg` "Tags", `ld` "Debug"; the stations and tags overlays hold one marker per station or tag, in order, each as built above, and the debug overlay holds the debug markers |
| Layers.RegisterLayer | main-0fd1b777.js:517-520 | registering maps the layer to the key and leaves every other layer's key as it was |
| Layers.RegisterAll | main-0fd1b777.js:517-545 | registering overlays in order maps exactly the positions `0..n-1`, each to its overlay's key |
| Layers.ViewerKeysDistinct | main-0fd1b777.js:528-545 | the viewer's registry is `{0: lt, 1: lg, 2: ld}`, and no two layers share a key |
| ViewState.ParseNumber | main-0fd1b777.js:462-465 | a number parses to itself, `NaN` falls back to the default, and a missing value gives 0 |
| ViewState.ParseNumberZeroDefault | main-0fd1b777.js:552-554 | with the viewer's default, each of `x`, `y`, `z` is 0 when missing or non-numeric, independently of the others |
| ViewState.SelectPath | main-0fd1b777.js:467 | the `path` parameter wins, then the configured path, then the empty string |
| ViewState.NormalizePath | main-0fd1b777.js:468-470 | an empty path stays empty, a non-empty one ends in `/`, and at most one `/` is appended (none if already present) |
| ViewState.NormalizePathIdempotent | main-0fd1b777.js:468-470 | normalising twice equals normalising once |
| ViewState.StartupCamera | main-0fd1b777.js:551-555 | the initial centre maps back to the world point parsed from `x`, `y`, and the zoom is the parsed `z` |
| ViewState.StartupCameraDefault | main-0fd1b777.js:551-555 | without `x`, `y`, `z` the view opens on world (0, 0) at zoom 0 |
| ViewState.OnViewChange | main-0fd1b777.js:566-574 | `x`, `y`, `z` are set to the formatted world centre and zoom; every other parameter is kept |
| ViewState.ViewChangeWritesWorldCentre | main-0fd1b777.js:566-572 | for a camera centred on world point (x, y), the query gets `x` and `y` in world orientation (y downwards), not the map's latitude |
| ViewState.ViewRoundTrip | main-0fd1b777.js:551-574 | when the formatted numbers parse back exactly, loading the query that `onViewChange` wrote restores the camera |
| ViewState.ApplyOverlayParams | main-0fd1b777.js:556-564 | `"0"` hides the layer and `"1"` shows it; any other value, a missing key or an unregistered layer keeps its visibility |
| ViewState.OnLayerChange | main-0fd1b777.js:579-588 | a registered layer's key becomes `"1"` on add and `"0"` on remove, all other entries kept; an unknown layer leaves the query unchanged |
| ViewState.LayerChangeRestores | main-0fd1b777.js:556-588 | with distinct keys, the query written by an overlay event brings that overlay back in the same state at the next load and no other overlay changes |
| ViewState.LayerChangeLastWins | main-0fd1b777.js:579-588 | of two events on one layer the second decides the query, so hiding then showing ends with the key at `"1"` |
| ViewState.ViewChangeKeepsOverlays | main-0fd1b777.js:556-574 | saving the view changes no overlay's startup visibility when no overlay key is `x`, `y` or `z` |
| ViewState.ViewerStartupExample | main-0fd1b777.js:556-564 | with the viewer's registry, `?lt=0` hides the stations and `?lg=1` shows the tags |
| BoxZoom.SetStateOn | main-0fd1b777.js:89-103 | ON: both CSS marks set, dragging off, `mousedown` subscribed, hooks installed iff `enableShiftDrag` is unset (otherwise as before), `boxzoomend` subscribed iff `keepOn` is unset (otherwise as before) |
| BoxZoom.SetStateOff | main-0fd1b777.js:104-114 | OFF: marks cleared, dragging on, `mousedown` dropped, hooks removed iff `enableShiftDrag` is unset; the `boxzoomend` subscription is left as it was |
| BoxZoom.ToggleState | main-0fd1b777.js:86-88 | toggling flips `active` and switches dragging and the `mousedown` subscription accordingly |
| BoxZoom.OnAdd | main-0fd1b777.js:24-75 | a new control starts OFF, with dragging enabled, no subscriptions and handlers patched exactly when an aspect ratio is set, in a consistent state |
| BoxZoom.OnRemove | main-0fd1b777.js:77-84 | removal restores the patched handlers and changes nothing else |
| BoxZoom.OnBoxZoomEnd | main-0fd1b777.js:98-100 | a completed zoom switches the control OFF exactly when the auto-off subscription exists |
| BoxZoom.SetStateOffIdempotent | main-0fd1b777.js:104-114 | `setStateOff` twice equals `setStateOff` once |
| BoxZoom.SetStateOnIdempotent | main-0fd1b777.js:89-103 | `setStateOn` twice equals `setStateOn` once |
| BoxZoom.BoxZoomEndWhileOffIsNoop | main-0fd1b777.js:97-114 | the subscription that `setStateOff` leaves behind does nothing to a control that is already OFF |
| BoxZoom.AutoOff | main-0fd1b777.js:98-100 | after a completed zoom an ON control stays ON exactly when `keepOn` is set |
| BoxZoom.ToggleTwiceFromStart | main-0fd1b777.js:86-114 | ON then OFF from the initial state restores it, except that `boxzoomend` stays subscribed unless `keepOn` is set |
| BoxZoom.StepPreservesConsistent | main-0fd1b777.js:86-114 | clicks and completed zooms keep `active`, both CSS marks, dragging, subscriptions and hooks in step |
| BoxZoom.RunPreservesConsistent | main-0fd1b777.js:86-114 | every sequence of clicks and completed zooms keeps that consistency |
| BoxZoom.BoxZoomEndSubscriptionPersists | main-0fd1b777.js:98-114 | once subscribed, the `boxzoomend` handler stays subscribed after any events |
| BoxZoom.Shrink | main-0fd1b777.js:146-147 | each side is the drag extent less 4 pixels: never negative, never more than the extent, 0 for a drag of 4 pixels or less |
| BoxZoom.DrawBox | main-0fd1b777.js:132-151 | the box starts at the smaller corner; its width is the shrunk x extent; with an aspect ratio, height times ratio equals width, otherwise height is the shrunk y extent |
| BoxZoom.AspectRatioExample | main-0fd1b777.js:146-151 | aspect ratio 2 with a 100-pixel width gives a 50-pixel height |
| BoxZoom.MouseUp | main-0fd1b777.js:156-175 | the release returns early, before finishing the drag, exactly when the map's coordinate equality holds of the box's top-left corner and its bottom-right corner at the measured size (CSS size plus the border on both sides); otherwise it zooms to those two corners |
| BoxZoom.IgnoredIffDegenerate | main-0fd1b777.js:161-165 | when the conversion keeps distinct pixels apart under that equality, the release is ignored exactly when the measured box, border included, has zero width and zero height |
| BoxZoom.DragIgnoredIffNarrow | main-0fd1b777.js:146-165 | with an aspect ratio and a non-negative border, a drag's release is ignored exactly when the box has no border and the drag moved at most 4 pixels horizontally; with any border every release zooms |
| BoxZoom.Drag | main-0fd1b777.js:67-175 | a drag does nothing unless the control listens for `mousedown`; while the handlers are patched the patched release decides, otherwise (no aspect ratio, or after removal) Leaflet's own rule (a parameter) decides; a completed zoom fires `boxzoomend`, an ignored release leaves the control as it was |
| BoxZoom.DragOutcome | main-0fd1b777.js:97-175 | an ON control with an aspect ratio stays ON after a drag of at most 4 pixels of a borderless box; after a wider drag, or any drag of a bordered box, it is OFF unless `keepOn` is set |
| BoxZoom.RemovedWhileOnUsesStockRule | main-0fd1b777.js:77-118 | a control switched ON and then removed still listens for `mousedown` with the stock handlers back in place, so a drag Leaflet completes switches it OFF |
| Zoomslider.Clamp | main-0fd1b777.js:219 | the clamped value lies in `[0, hi]` and equals the input inside that range, the nearer end outside it, and 0 when `hi < 0` |
| Zoomslider.SetSteps | main-0fd1b777.js:232-240 | after `setSteps(n)` the slope is `-stepHeight`, the top value is `n - 1`, at offset `(stepHeight - knobHeight)/2`, and value 0 is at `n*stepHeight - (stepHeight + knobHeight)/2` |
| Zoomslider.ToY | main-0fd1b777.js:223-226 | the offset of a value is `k*v + m`, so with a non-zero slope `(offset - m)/k` gives the value back |
| Zoomslider.ToValue | main-0fd1b777.js:223-230 | `_toY(_toValue(y)) == y` |
| Zoomslider.ValueRoundTrip | main-0fd1b777.js:223-230 | `_toValue(_toY(v)) == v` |
| Zoomslider.Adjust | main-0fd1b777.js:216-221 | the adjusted offset's value is the clamped value of the input offset, with no rounding |
| Zoomslider.AdjustIdempotent | main-0fd1b777.js:216-221 | adjusting an adjusted offset changes nothing |
| Zoomslider.SetPosition | main-0fd1b777.js:242-245 | only the position changes, to the offset of the clamped value |
| Zoomslider.SetValue | main-0fd1b777.js:247-249 | only the position changes, and its value is `v` clamped to `[0, maxValue]` |
| Zoomslider.GetValue | main-0fd1b777.js:251-253 | the value read is the one whose offset is the knob's position |
| Zoomslider.SetValueGetValue | main-0fd1b777.js:232-253 | after `setSteps(n)` with `n >= 1`, `setValue(v)` then `getValue()` gives `v` clamped to `[0, n-1]`, and gives `v` itself when `v` is in range |
| Zoomslider.FiveStepsExample | main-0fd1b777.js:232-253 | `setSteps(5)`, `setValue(2)`, `getValue()` gives 2 |
| Zoomslider.KnobCentredOnStep | main-0fd1b777.js:223-240 | the knob for value `v` is centred on the middle of the `v`-th step from the bottom of the track |
| Zoomslider.KnobInsideTrack | main-0fd1b777.js:223-240 | a knob no taller than a step, at any in-range value, lies wholly inside the track |
| Zoomslider.ZoomLevels | main-0fd1b777.js:351-354 | the number of levels is `maxZoom - minZoom + 1`, or 0 when the maximum is infinite |
| Zoomslider.ToZoomLevel | main-0fd1b777.js:355-357 | a knob value is its zoom level's offset from `minZoom` |
| Zoomslider.ZoomToValue | main-0fd1b777.js:358-360 | `_toZoomLevel(_toValue(z)) == z` |
| Zoomslider.ZoomValueRoundTrip | main-0fd1b777.js:355-360 | `_toValue(_toZoomLevel(v)) == v` |
| Zoomslider.UpdateSize | main-0fd1b777.js:362-367 | the track gets one step per zoom level and a body `stepHeight * levels` high, and the buttons are untouched |
| Zoomslider.UpdateKnobValue | main-0fd1b777.js:371-373 | only the knob's position changes, and the knob shows the map's zoom offset by `minZoom`, clamped to the track |
| Zoomslider.UpdateMapZoom | main-0fd1b777.js:368-370 | the map is asked for the knob's value plus `minZoom` |
| Zoomslider.UpdateDisabled | main-0fd1b777.js:374-387 | zoom-out is dimmed iff the zoom equals the minimum, zoom-in iff it equals a finite maximum |
| Zoomslider.OnSliderClick | main-0fd1b777.js:334-340 | only the knob changes: it moves to the clamped offset, and the map is asked for that value's zoom level |
| Zoomslider.ZoomButtonDelta | main-0fd1b777.js:342-349 | the buttons step by 2 with shift held, else by the map's zoom delta |
| Zoomslider.OnZoomEnd | main-0fd1b777.js:321-325 | after `zoomend` the knob shows the clamped zoom and the buttons are dimmed exactly at the extremes |
| Zoomslider.OnZoomLevelsChange | main-0fd1b777.js:321-325 | after `zoomlevelschange` the track is resized to the level count before the knob is updated |
| Zoomslider.SliderRoundTrip | main-0fd1b777.js:362-373 | sizing the track, showing the map's zoom and committing the knob gives back the zoom when in range, and the nearest bound otherwise |
| Zoomslider.ButtonsMatchKnobEnds | main-0fd1b777.js:362-387 | with the zoom in range, zoom-out is dimmed iff the knob is at the bottom and zoom-in iff it is at the top |
| Zoomslider.UnboundedMaximum | main-0fd1b777.js:351-387 | with an infinite maximum the track has no height, the knob rests at 0 and zoom-in is never dimmed |
| Zoomslider.ViewerSliderMargins | main-0fd1b777.js:504-505 | with the map four levels beyond the native range on each side, at any native zoom the knob stays at least 4 steps from either end of the track and neither button is dimmed |

## Left out

- Fetching and parsing `mapshot.json` (lines 472-474): network I/O. The manifest is a given `WorldManifest` record, and a failed load is not modelled.
- Leaflet itself: tile loading, rendering, `setView`, `fitBounds`, marker, tooltip and popup objects, and the layer control. Markers are plain records. The map's dragging, box-zoom hooks and subscriptions are boolean fields. `layerPointToLatLng` is the function parameter `project`.
- DOM and CSS creation, `styleInject` and the inlined stylesheets (lines 287-315, 405-461): UI plumbing.
- The module wrapper (lines 181-198) and how the box-zoom handlers are patched and restored (lines 67-83). Only the fact that they are patched is kept (`patched`).
- IEEE-754 doubles, `NaN`, `Infinity` arithmetic, the text rules of `Number()` and the rounding of `toFixed(1)`. Numbers are reals, and the parse and format functions are parameters. Division by a zero render or tile size, or by a zero step height, is excluded by preconditions.
- `history.replaceState`, `URLSearchParams` encoding and repeated query keys: browser I/O. The query is a map with one value per key. The last-write-wins race between handlers is left as the event loop orders them.
- Mouse and touch coordinate extraction (lines 116-118, 334-340), and the stock Leaflet box-zoom handler state (`_moved`, `_startLayerPoint`, `boxzoomstart`). The drag's start and pointer points are parameters.
- BoxZoom.MouseUp: the box's DOM `offsetWidth`/`offsetHeight` are its CSS width and height plus the border on both sides; the border width is a parameter, because the stylesheet that sets it is not part of this file, and integer rounding is not modelled. Leaflet's `LatLng.equals` (equal within a small margin) is the parameter `same`, not modelled itself. After an ignored release the drag is not finished (line 165 returns before `_finish()` at line 167); the handler's drag state is not modelled, so the model only says the control is unchanged.
- BoxZoom.Drag: while the handlers are not patched (no aspect ratio, lines 67-71, or after `onRemove` put the stock handlers back, lines 79-83, with `mousedown` still subscribed) Leaflet's stock release rule applies; that rule is not modelled and enters only as the parameter `stockZoomed`.
- The knob before its first `setSteps` (its `_k` and `_m` are undefined then). The slider always calls `_updateSize` before `_updateKnobValue`.
- The zoom buttons' calls to `map.zoomIn` and `map.zoomOut`, and the map's own clamping of `setZoom`. Only the requested step and the requested level are modelled.
- The map's minimum zoom is a finite number, as Leaflet's `getMinZoom` returns. Only the maximum may be infinite.
- Console logging.
