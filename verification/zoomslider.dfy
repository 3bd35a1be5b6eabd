/** The zoom slider: a draggable knob on a vertical track, one step per zoom
    level, linear between pixel offset and value (`y = k*v + m`), and two
    buttons that are dimmed at the zoom extremes. */
module Zoomslider {
  import opened Manifest

  /** The map's maximum zoom is infinite until a layer or option bounds it. */
  datatype Bound = Finite(value: real) | Infinite

  /** The knob: its geometry, its calibration (set by `setSteps`) and its
      current vertical position. */
  datatype Knob = Knob(stepHeight: real, knobHeight: real,
                       maxValue: real, k: real, m: real, pos: real)

  /** `Math.max(0, Math.min(hi, v))`. */
  function Clamp(v: real, hi: real): (r: real)
    ensures 0.0 <= hi ==> 0.0 <= r <= hi
    ensures 0.0 <= v <= hi ==> r == v
    ensures hi < 0.0 ==> r == 0.0
    ensures 0.0 <= hi && v < 0.0 ==> r == 0.0
    ensures 0.0 <= hi < v ==> r == hi
  {
    var lower := if hi <= v then hi else v;
    if 0.0 <= lower then lower else 0.0
  }

  /** `setSteps`: a track of `steps` steps; values run from 0 at the bottom
      to `steps - 1` at the top. */
  function SetSteps(kn: Knob, steps: real): (r: Knob)
    requires kn.stepHeight != 0.0
    ensures r.k == -kn.stepHeight && r.k != 0.0
    ensures r.maxValue + 1.0 == steps
    ensures r.k * r.maxValue + r.m == (kn.stepHeight - kn.knobHeight) / 2.0
    ensures r.m == steps * kn.stepHeight - (kn.stepHeight + kn.knobHeight) / 2.0
    ensures r.stepHeight == kn.stepHeight && r.knobHeight == kn.knobHeight && r.pos == kn.pos
  {
    kn.(maxValue := steps - 1.0,
        k := -kn.stepHeight,
        m := steps * kn.stepHeight - (kn.stepHeight + kn.knobHeight) / 2.0)
  }

  /** `_toY`: the pixel offset of a value; with a non-zero slope the
      value is recovered from it. */
  function ToY(kn: Knob, v: real): (r: real)
    ensures kn.k != 0.0 ==> (r - kn.m) / kn.k == v
  {
    kn.k * v + kn.m
  }

  /** `_toValue`: the value at a pixel offset; the inverse of `ToY`. */
  function ToValue(kn: Knob, y: real): (v: real)
    requires kn.k != 0.0
    ensures ToY(kn, v) == y
  {
    (y - kn.m) / kn.k
  }

  /** `ToValue` undoes `ToY`. */
  lemma ValueRoundTrip(kn: Knob, v: real)
    requires kn.k != 0.0
    ensures ToValue(kn, ToY(kn, v)) == v
  {
  }

  /** `_adjust`: the offset of the value at `y`, clamped to the track
      (no rounding to whole steps). */
  function Adjust(kn: Knob, y: real): (r: real)
    requires kn.k != 0.0
    ensures ToValue(kn, r) == Clamp(ToValue(kn, y), kn.maxValue)
  {
    var v := Clamp(ToValue(kn, y), kn.maxValue);
    ToY(kn, v)
  }

  /** Adjusting an adjusted offset changes nothing. */
  lemma AdjustIdempotent(kn: Knob, y: real)
    requires kn.k != 0.0
    ensures Adjust(kn, Adjust(kn, y)) == Adjust(kn, y)
  {
  }

  /** `setPosition`: moves the knob to the adjusted offset. */
  function SetPosition(kn: Knob, y: real): (r: Knob)
    requires kn.k != 0.0
    ensures r.(pos := kn.pos) == kn
    ensures ToValue(r, r.pos) == Clamp(ToValue(kn, y), kn.maxValue)
  {
    kn.(pos := Adjust(kn, y))
  }

  /** `setValue`: moves the knob to the offset of `v`, clamped to the track. */
  function SetValue(kn: Knob, v: real): (r: Knob)
    requires kn.k != 0.0
    ensures r.(pos := kn.pos) == kn
    ensures ToValue(r, r.pos) == Clamp(v, kn.maxValue)
  {
    SetPosition(kn, ToY(kn, v))
  }

  /** `getValue`: the value at the knob's position. */
  function GetValue(kn: Knob): (v: real)
    requires kn.k != 0.0
    ensures ToY(kn, v) == kn.pos
  {
    ToValue(kn, kn.pos)
  }

  /** After `setSteps(n)`, `setValue(v)` then `getValue()` gives `v`
      clamped to `[0, n - 1]`; a value on the track comes back unchanged. */
  lemma SetValueGetValue(kn: Knob, n: real, v: real)
    requires kn.stepHeight != 0.0 && 1.0 <= n
    ensures var r := SetValue(SetSteps(kn, n), v);
            && 0.0 <= GetValue(r) <= n - 1.0
            && GetValue(r) == Clamp(v, n - 1.0)
            && (0.0 <= v <= n - 1.0 ==> GetValue(r) == v)
  {
  }

  /** With five steps, setting 2 reads back 2. */
  lemma FiveStepsExample(kn: Knob)
    requires kn.stepHeight == 8.0 && kn.knobHeight == 6.0
    ensures GetValue(SetValue(SetSteps(kn, 5.0), 2.0)) == 2.0
  {
  }

  /** Each value's knob is centred on its own step: value `v` has its
      centre in the middle of the `v`-th step counted from the bottom of a
      track `steps * stepHeight` pixels high. */
  lemma KnobCentredOnStep(kn: Knob, steps: real, v: real)
    requires kn.stepHeight != 0.0
    ensures ToY(SetSteps(kn, steps), v) + kn.knobHeight / 2.0
         == steps * kn.stepHeight - (v + 1.0) * kn.stepHeight + kn.stepHeight / 2.0
  {
  }

  /** A knob no taller than a step, at any value of the track, lies wholly
      inside the track. */
  lemma KnobInsideTrack(kn: Knob, steps: real, v: real)
    requires 0.0 < kn.stepHeight && 0.0 <= kn.knobHeight <= kn.stepHeight
    requires 0.0 <= v <= steps - 1.0
    ensures var y := ToY(SetSteps(kn, steps), v);
            0.0 <= y && y + kn.knobHeight <= steps * kn.stepHeight
  {
    var y := ToY(SetSteps(kn, steps), v);
    var below := steps - 1.0 - v;
    assert y == below * kn.stepHeight + (kn.stepHeight - kn.knobHeight) / 2.0;
    assert below * kn.stepHeight >= 0.0;
  }

  // ---- The control ----

  /** The map's zoom state as the slider reads it. */
  datatype MapZoom = MapZoom(zoom: real, minZoom: real, maxZoom: Bound)

  datatype Slider = Slider(knob: Knob, bodyHeight: real, zoomInDisabled: bool, zoomOutDisabled: bool)

  /** `_zoomLevels`: the number of levels, or 0 while the maximum is infinite. */
  function ZoomLevels(z: MapZoom): (r: real)
    ensures z.maxZoom.Infinite? ==> r == 0.0
    ensures z.maxZoom.Finite? ==> z.minZoom + r - 1.0 == z.maxZoom.value
  {
    match z.maxZoom
    case Infinite => 0.0
    case Finite(hi) => hi - z.minZoom + 1.0
  }

  /** `_toZoomLevel`: a knob value as a zoom level. */
  function ToZoomLevel(z: MapZoom, v: real): (r: real)
    ensures r - z.minZoom == v
  {
    v + z.minZoom
  }

  /** `_toValue`: a zoom level as a knob value; inverse of `ToZoomLevel`. */
  function ZoomToValue(z: MapZoom, level: real): (v: real)
    ensures ToZoomLevel(z, v) == level
  {
    level - z.minZoom
  }

  /** `ZoomToValue` undoes `ToZoomLevel`. */
  lemma ZoomValueRoundTrip(z: MapZoom, v: real)
    ensures ZoomToValue(z, ToZoomLevel(z, v)) == v
  {
  }

  /** `_updateSize`: one step per zoom level. */
  function UpdateSize(s: Slider, z: MapZoom): (r: Slider)
    requires s.knob.stepHeight != 0.0
    ensures r.knob == SetSteps(s.knob, ZoomLevels(z))
    ensures r.bodyHeight == s.knob.stepHeight * ZoomLevels(z)
    ensures r.zoomInDisabled == s.zoomInDisabled && r.zoomOutDisabled == s.zoomOutDisabled
  {
    var steps := ZoomLevels(z);
    s.(bodyHeight := s.knob.stepHeight * steps, knob := SetSteps(s.knob, steps))
  }

  /** `_updateKnobValue`: the knob shows the map's zoom. */
  function UpdateKnobValue(s: Slider, z: MapZoom): (r: Slider)
    requires s.knob.k != 0.0
    ensures r == s.(knob := r.knob) && r.knob == s.knob.(pos := r.knob.pos)
    ensures GetValue(r.knob) == Clamp(z.zoom - z.minZoom, s.knob.maxValue)
  {
    s.(knob := SetValue(s.knob, ZoomToValue(z, z.zoom)))
  }

  /** `_updateMapZoom`: the zoom level the map is asked to take. */
  function UpdateMapZoom(s: Slider, z: MapZoom): (level: real)
    requires s.knob.k != 0.0
    ensures level == GetValue(s.knob) + z.minZoom
  {
    ToZoomLevel(z, GetValue(s.knob))
  }

  /** `_updateDisabled`: zoom-out is dimmed at the minimum, zoom-in at the maximum. */
  function UpdateDisabled(s: Slider, z: MapZoom): (r: Slider)
    ensures r.zoomOutDisabled <==> z.zoom == z.minZoom
    ensures r.zoomInDisabled <==> z.maxZoom == Finite(z.zoom)
    ensures r.knob == s.knob && r.bodyHeight == s.bodyHeight
  {
    s.(zoomInDisabled := z.maxZoom.Finite? && z.zoom == z.maxZoom.value,
       zoomOutDisabled := z.zoom == z.minZoom)
  }

  /** `_onSliderClick`: moves the knob to the clicked offset and returns the
      slider with the zoom level it asks the map for. */
  function OnSliderClick(s: Slider, z: MapZoom, y: real): (r: (Slider, real))
    requires s.knob.k != 0.0
    ensures r.0 == s.(knob := r.0.knob)
    ensures r.0.knob == SetPosition(s.knob, y)
    ensures r.1 - z.minZoom == Clamp(ToValue(s.knob, y), s.knob.maxValue)
  {
    var s' := s.(knob := SetPosition(s.knob, y));
    (s', UpdateMapZoom(s', z))
  }

  /** The step of the zoom buttons: 2 with shift held, else the map's delta. */
  function ZoomButtonDelta(shiftKey: bool, zoomDelta: real): (d: real)
    ensures shiftKey ==> d == 2.0
    ensures !shiftKey ==> d == zoomDelta
  {
    if shiftKey then 2.0 else zoomDelta
  }

  /** `zoomend`: the knob follows the map, then the buttons. */
  function OnZoomEnd(s: Slider, z: MapZoom): (r: Slider)
    requires s.knob.k != 0.0
    ensures r.knob.k == s.knob.k && r.knob.maxValue == s.knob.maxValue && r.bodyHeight == s.bodyHeight
    ensures GetValue(r.knob) == Clamp(z.zoom - z.minZoom, s.knob.maxValue)
    ensures r.zoomOutDisabled <==> z.zoom == z.minZoom
    ensures r.zoomInDisabled <==> z.maxZoom == Finite(z.zoom)
  {
    UpdateDisabled(UpdateKnobValue(s, z), z)
  }

  /** `zoomlevelschange`: the track is resized first. */
  function OnZoomLevelsChange(s: Slider, z: MapZoom): (r: Slider)
    requires s.knob.stepHeight != 0.0
    ensures r.knob.k != 0.0 && r.knob.maxValue + 1.0 == ZoomLevels(z)
    ensures r.bodyHeight == s.knob.stepHeight * ZoomLevels(z)
    ensures GetValue(r.knob) == Clamp(z.zoom - z.minZoom, ZoomLevels(z) - 1.0)
  {
    var sized := UpdateSize(s, z);
    OnZoomEnd(sized, z)
  }

  /** Sizing the track for the map, showing the map's zoom on the knob and
      committing the knob gives back the map's zoom when it is in range, and
      the nearest bound otherwise. */
  lemma SliderRoundTrip(s: Slider, z: MapZoom, hi: real)
    requires s.knob.stepHeight != 0.0
    requires z.maxZoom == Finite(hi) && z.minZoom <= hi
    ensures var r := OnZoomLevelsChange(s, z);
            && (z.minZoom <= z.zoom <= hi ==> UpdateMapZoom(r, z) == z.zoom)
            && (z.zoom < z.minZoom ==> UpdateMapZoom(r, z) == z.minZoom)
            && (hi < z.zoom ==> UpdateMapZoom(r, z) == hi)
  {
  }

  /** With the map's zoom in range, each button is dimmed exactly when the
      knob sits at the matching end of the track: zoom-out at the bottom,
      zoom-in at the top. */
  lemma ButtonsMatchKnobEnds(s: Slider, z: MapZoom, hi: real)
    requires s.knob.stepHeight != 0.0
    requires z.maxZoom == Finite(hi) && z.minZoom <= z.zoom <= hi
    ensures var r := OnZoomLevelsChange(s, z);
            && (r.zoomOutDisabled <==> GetValue(r.knob) == 0.0)
            && (r.zoomInDisabled <==> GetValue(r.knob) == r.knob.maxValue)
  {
  }

  /** While the maximum zoom is unbounded the track has no steps, the knob
      rests at value 0 and zoom-in is never dimmed. */
  lemma UnboundedMaximum(s: Slider, z: MapZoom)
    requires s.knob.stepHeight != 0.0 && z.maxZoom.Infinite?
    ensures var r := OnZoomLevelsChange(s, z);
            r.bodyHeight == 0.0 && GetValue(r.knob) == 0.0 && !r.zoomInDisabled
  {
  }

  /** The viewer opens its map four levels beyond the native zoom range on
      each side, so at any native zoom the knob stays at least four steps
      from either end of the track and neither button is dimmed. */
  lemma ViewerSliderMargins(info: WorldManifest, s: Slider, zoom: real)
    requires s.knob.stepHeight != 0.0
    requires info.zoomMin as real <= zoom <= info.zoomMax as real
    ensures var z := MapZoom(zoom, (info.zoomMin - 4) as real, Finite((info.zoomMax + 4) as real));
            var r := OnZoomLevelsChange(s, z);
            && 4.0 <= GetValue(r.knob) <= r.knob.maxValue - 4.0
            && !r.zoomInDisabled && !r.zoomOutDisabled
  {
  }
}
