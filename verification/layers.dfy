/** The layer builder: one marker per station and per tag, a fixed set of
    debug markers, and the registry that maps each overlay layer to the
    short key it is saved under in the query string. */
module Layers {
  import opened Manifest
  import opened Geo

  /** What a marker shows on hover or click. */
  datatype Label = Tooltip(text: string, permanent: bool) | Popup(text: string) | NoLabel

  datatype Marker = Marker(pos: LatLng, title: string, tip: Label)

  /** An overlay as registered with the layer control. */
  datatype Overlay = Overlay(key: string, name: string, markers: seq<Marker>)

  /** Identity of a layer object; the registry maps layers to their keys. */
  type LayerId = nat

  const StationsKey := "lt"
  const TagsKey := "lg"
  const DebugKey := "ld"

  /** A station's marker sits on the centre of its bounding box and carries
      its backer name as title and permanent tooltip. */
  function StationMarker(info: WorldManifest, s: Station): Marker
    requires info.tileSize != 0.0
  {
    Marker(MidPointToLatLng(info, s.boundingBox), s.backerName, Tooltip(s.backerName, true))
  }

  /** A tag's marker is titled `force: text`; its permanent tooltip is the
      text alone. */
  function TagMarker(info: WorldManifest, t: Tag): Marker
    requires info.tileSize != 0.0
  {
    Marker(WorldToLatLng(info, t.position.x, t.position.y), t.forceName + ": " + t.text,
           Tooltip(t.text, true))
  }

  /** The stations layer: one marker per station, in order; none when the
      field is missing or not iterable. */
  method StationMarkers(info: WorldManifest) returns (ms: seq<Marker>)
    requires info.tileSize != 0.0
    ensures info.stations.None? ==> ms == []
    ensures info.stations.Some? ==>
              |ms| == |info.stations.value|
              && forall i :: 0 <= i < |ms| ==> ms[i] == StationMarker(info, info.stations.value[i])
  {
    ms := [];
    if info.stations.Some? {
      var stations := info.stations.value;
      var i := 0;
      while i < |stations|
        invariant 0 <= i <= |stations|
        invariant |ms| == i
        invariant forall j :: 0 <= j < i ==> ms[j] == StationMarker(info, stations[j])
      {
        ms := ms + [StationMarker(info, stations[i])];
        i := i + 1;
      }
    }
  }

  /** The tags layer: one marker per tag, in order; none when the field is
      missing or not iterable. */
  method TagMarkers(info: WorldManifest) returns (ms: seq<Marker>)
    requires info.tileSize != 0.0
    ensures info.tags.None? ==> ms == []
    ensures info.tags.Some? ==>
              |ms| == |info.tags.value|
              && forall i :: 0 <= i < |ms| ==> ms[i] == TagMarker(info, info.tags.value[i])
  {
    ms := [];
    if info.tags.Some? {
      var tags := info.tags.value;
      var i := 0;
      while i < |tags|
        invariant 0 <= i <= |tags|
        invariant |ms| == i
        invariant forall j :: 0 <= j < i ==> ms[j] == TagMarker(info, tags[j])
      {
        ms := ms + [TagMarker(info, tags[i])];
        i := i + 1;
      }
    }
  }

  /** A corner marker, titled with its world coordinates as `x, y`;
      `show` stands for JavaScript's number-to-string conversion. */
  function CornerMarker(info: WorldManifest, x: real, y: real, show: real -> string): Marker
    requires info.tileSize != 0.0
  {
    Marker(WorldToLatLng(info, x, y), show(x) + ", " + show(y), NoLabel)
  }

  /** The debug layer: the origin, the player when present, then the four
      corners of the world in the order min/min, min/max, max/min, max/max. */
  function DebugMarkers(info: WorldManifest, show: real -> string): (ms: seq<Marker>)
    requires info.tileSize != 0.0
    ensures |ms| == if info.player.Some? then 6 else 5
    ensures ms[0] == Marker(LatLng(0.0, 0.0), "Start", Popup("Starting point"))
    ensures info.player.Some? ==>
              ms[1] == Marker(WorldToLatLng(info, info.player.value.x, info.player.value.y),
                              "Player", Popup("Player"))
    ensures var c := |ms| - 4;
            && ms[c]     == CornerMarker(info, info.worldMin.x, info.worldMin.y, show)
            && ms[c + 1] == CornerMarker(info, info.worldMin.x, info.worldMax.y, show)
            && ms[c + 2] == CornerMarker(info, info.worldMax.x, info.worldMin.y, show)
            && ms[c + 3] == CornerMarker(info, info.worldMax.x, info.worldMax.y, show)
  {
    var start := [Marker(LatLng(0.0, 0.0), "Start", Popup("Starting point"))];
    var player :=
      if info.player.Some?
      then [Marker(WorldToLatLng(info, info.player.value.x, info.player.value.y),
                   "Player", Popup("Player"))]
      else [];
    start + player
    + [CornerMarker(info, info.worldMin.x, info.worldMin.y, show),
       CornerMarker(info, info.worldMin.x, info.worldMax.y, show),
       CornerMarker(info, info.worldMax.x, info.worldMin.y, show),
       CornerMarker(info, info.worldMax.x, info.worldMax.y, show)]
  }

  /** The origin marker is the projection of world point (0, 0). */
  lemma StartMarkerAtWorldOrigin(info: WorldManifest, show: real -> string)
    requires info.tileSize != 0.0
    ensures DebugMarkers(info, show)[0].pos == WorldToLatLng(info, 0.0, 0.0)
  {
  }

  /** The four corner markers sit on four distinct map points exactly when
      the world has a non-zero extent along both axes. */
  lemma CornersDistinct(info: WorldManifest, show: real -> string)
    requires info.Scalable()
    ensures var ms := DebugMarkers(info, show);
            var c := |ms| - 4;
            (forall i, j :: c <= i < j < |ms| ==> ms[i].pos != ms[j].pos)
            <==> info.worldMin.x != info.worldMax.x && info.worldMin.y != info.worldMax.y
  {
    var ms := DebugMarkers(info, show);
    var c := |ms| - 4;
    if info.worldMin.x == info.worldMax.x {
      assert ms[c].pos == ms[c + 2].pos;
    } else if info.worldMin.y == info.worldMax.y {
      assert ms[c].pos == ms[c + 1].pos;
    }
  }

  /** The three overlays in registration order: stations, tags, debug. */
  method BuildOverlays(info: WorldManifest, show: real -> string) returns (overlays: seq<Overlay>)
    requires info.tileSize != 0.0
    ensures |overlays| == 3
    ensures overlays[0].key == StationsKey && overlays[0].name == "Train stations"
    ensures overlays[1].key == TagsKey && overlays[1].name == "Tags"
    ensures overlays[2].key == DebugKey && overlays[2].name == "Debug"
    ensures |overlays[0].markers| == if info.stations.Some? then |info.stations.value| else 0
    ensures info.stations.Some? ==>
              forall i :: 0 <= i < |overlays[0].markers| ==>
                overlays[0].markers[i] == StationMarker(info, info.stations.value[i])
    ensures |overlays[1].markers| == if info.tags.Some? then |info.tags.value| else 0
    ensures info.tags.Some? ==>
              forall i :: 0 <= i < |overlays[1].markers| ==>
                overlays[1].markers[i] == TagMarker(info, info.tags.value[i])
    ensures overlays[2].markers == DebugMarkers(info, show)
  {
    var stations := StationMarkers(info);
    var tags := TagMarkers(info);
    overlays := [Overlay(StationsKey, "Train stations", stations),
                 Overlay(TagsKey, "Tags", tags),
                 Overlay(DebugKey, "Debug", DebugMarkers(info, show))];
  }

  /** `registerLayer`: records `key` for `layer`, replacing any earlier key
      for the same layer object. */
  function RegisterLayer(layerKeys: map<LayerId, string>, key: string, layer: LayerId)
    : (r: map<LayerId, string>)
    ensures r.Keys == layerKeys.Keys + {layer}
    ensures r[layer] == key
    ensures forall l :: l in layerKeys && l != layer ==> r[l] == layerKeys[l]
  {
    layerKeys[layer := key]
  }

  /** No two registered layers share a key. */
  ghost predicate KeysDistinct(layerKeys: map<LayerId, string>) {
    forall a, b :: a in layerKeys && b in layerKeys && a != b ==> layerKeys[a] != layerKeys[b]
  }

  /** Registers each overlay under its position in `overlays`. */
  function RegisterAll(overlays: seq<Overlay>): (r: map<LayerId, string>)
    ensures forall i: LayerId :: i in r <==> i < |overlays|
    ensures forall i: LayerId :: i < |overlays| ==> r[i] == overlays[i].key
    decreases |overlays|
  {
    if overlays == [] then map[]
    else RegisterLayer(RegisterAll(overlays[..|overlays| - 1]),
                       overlays[|overlays| - 1].key, |overlays| - 1)
  }

  /** The viewer's registry: stations, tags and debug under distinct keys. */
  lemma ViewerKeysDistinct(overlays: seq<Overlay>)
    requires |overlays| == 3
    requires overlays[0].key == StationsKey && overlays[1].key == TagsKey
    requires overlays[2].key == DebugKey
    ensures KeysDistinct(RegisterAll(overlays))
    ensures RegisterAll(overlays) == map[0 := StationsKey, 1 := TagsKey, 2 := DebugKey]
  {
  }
}
