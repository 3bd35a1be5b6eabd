/** The view-state synchroniser: the camera and overlay visibility live in
    the page's query string, modelled as a map from parameter name to value.
    JavaScript's `Number()` is the parameter `num` (`None` for `NaN`) and
    `toFixed(1)` is the parameter `fixed`. */
module ViewState {
  import opened Wrappers
  import opened Manifest
  import opened Geo
  import opened Layers

  type Query = map<string, string>

  /** `parseNumber`: the parsed number, or `default` when it is `NaN`.
      `Number(null)` is 0, so a missing parameter yields 0 whatever the default. */
  function ParseNumber(v: Option<string>, default: real, num: string -> Option<real>): (r: real)
    ensures v.None? ==> r == 0.0
    ensures v.Some? ==> r == num(v.value).GetOr(default)
  {
    match v
    case None => 0.0
    case Some(s) =>
      match num(s)
      case None => default
      case Some(c) => c
  }

  /** A missing and a non-numeric parameter both fall back to 0 with the
      viewer's default of 0, each parameter on its own. */
  lemma ParseNumberZeroDefault(v: Option<string>, num: string -> Option<real>)
    ensures (v.None? || num(v.value).None?) ==> ParseNumber(v, 0.0, num) == 0.0
    ensures v.Some? && num(v.value).Some? ==> ParseNumber(v, 0.0, num) == num(v.value).value
  {
  }

  /** The base path: the `path` parameter, else the configured default,
      else empty. Only a missing value falls through; an empty one does not. */
  function SelectPath(param: Option<string>, config: Option<string>): (r: string)
    ensures param.Some? ==> r == param.value
    ensures param.None? && config.Some? ==> r == config.value
    ensures param.None? && config.None? ==> r == ""
  {
    match param
    case Some(p) => p
    case None => config.GetOr("")
  }

  /** Adds a trailing slash to a non-empty path that lacks one. */
  function NormalizePath(p: string): (r: string)
    ensures p == [] ==> r == []
    ensures p != [] ==> |r| > 0 && r[|r| - 1] == '/'
    ensures r == p || r == p + "/"
    ensures p != [] && p[|p| - 1] == '/' ==> r == p
  {
    if p != [] && p[|p| - 1] != '/' then p + "/" else p
  }

  /** Normalising twice is normalising once. */
  lemma NormalizePathIdempotent(p: string)
    ensures NormalizePath(NormalizePath(p)) == NormalizePath(p)
  {
  }

  /** The camera: centre in map coordinates and zoom. */
  datatype Camera = Camera(center: LatLng, zoom: real)

  /** The initial view read from `x`, `y` and `z`. */
  function StartupCamera(info: WorldManifest, q: Query, num: string -> Option<real>): (c: Camera)
    requires info.Scalable()
    ensures LatLngToWorld(info, c.center)
         == WorldPoint(ParseNumber(Get(q, "x"), 0.0, num), ParseNumber(Get(q, "y"), 0.0, num))
    ensures c.zoom == ParseNumber(Get(q, "z"), 0.0, num)
  {
    var x := ParseNumber(Get(q, "x"), 0.0, num);
    var y := ParseNumber(Get(q, "y"), 0.0, num);
    var z := ParseNumber(Get(q, "z"), 0.0, num);
    Camera(WorldToLatLng(info, x, y), z)
  }

  /** Without camera parameters the view opens on world (0, 0) at zoom 0. */
  lemma StartupCameraDefault(info: WorldManifest, q: Query, num: string -> Option<real>)
    requires info.Scalable()
    requires "x" !in q && "y" !in q && "z" !in q
    ensures StartupCamera(info, q, num) == Camera(LatLng(0.0, 0.0), 0.0)
  {
  }

  /** `onViewChange`: writes the world centre and the zoom to `x`, `y`, `z`
      and keeps every other parameter. */
  function OnViewChange(info: WorldManifest, q: Query, cam: Camera, fixed: real -> string): (r: Query)
    requires info.renderSize != 0.0
    ensures r.Keys == q.Keys + {"x", "y", "z"}
    ensures var w := LatLngToWorld(info, cam.center);
            r["x"] == fixed(w.x) && r["y"] == fixed(w.y) && r["z"] == fixed(cam.zoom)
    ensures forall k :: k in q && k != "x" && k != "y" && k != "z" ==> r[k] == q[k]
  {
    var w := LatLngToWorld(info, cam.center);
    q["x" := fixed(w.x)]["y" := fixed(w.y)]["z" := fixed(cam.zoom)]
  }

  /** The query records the world point the camera is centred on, with y
      growing downwards as in the world, not the map's latitude. */
  lemma ViewChangeWritesWorldCentre(info: WorldManifest, q: Query, x: real, y: real, zoom: real,
                                    fixed: real -> string)
    requires info.Scalable()
    ensures var r := OnViewChange(info, q, Camera(WorldToLatLng(info, x, y), zoom), fixed);
            r["x"] == fixed(x) && r["y"] == fixed(y) && r["z"] == fixed(zoom)
  {
    WorldRoundTrip(info, x, y);
  }

  /** Saving the view and loading it back restores the camera, whenever the
      one-decimal formatting of its three numbers reads back exactly. */
  lemma ViewRoundTrip(info: WorldManifest, q: Query, cam: Camera,
                      num: string -> Option<real>, fixed: real -> string)
    requires info.Scalable()
    requires var w := LatLngToWorld(info, cam.center);
             num(fixed(w.x)) == Some(w.x) && num(fixed(w.y)) == Some(w.y)
             && num(fixed(cam.zoom)) == Some(cam.zoom)
    ensures StartupCamera(info, OnViewChange(info, q, cam, fixed), num) == cam
  {
  }

  /** Whether a registered layer is on the map after the startup pass over
      the overlay parameters: `"0"` removes it, `"1"` adds it, anything else
      leaves it as it was. */
  predicate ShownAfterStartup(layerKeys: map<LayerId, string>, q: Query,
                              visible: set<LayerId>, l: LayerId)
  {
    if l in layerKeys && Get(q, layerKeys[l]) == Some("0") then false
    else if l in layerKeys && Get(q, layerKeys[l]) == Some("1") then true
    else l in visible
  }

  /** The startup pass over the registry (`layerKeys.forEach`). */
  method ApplyOverlayParams(layerKeys: map<LayerId, string>, q: Query, visible: set<LayerId>)
    returns (shown: set<LayerId>)
    ensures forall l :: l in shown <==> ShownAfterStartup(layerKeys, q, visible, l)
    ensures forall l :: l in layerKeys && Get(q, layerKeys[l]) == Some("0") ==> l !in shown
    ensures forall l :: l in layerKeys && Get(q, layerKeys[l]) == Some("1") ==> l in shown
    ensures forall l :: l !in layerKeys ==> (l in shown <==> l in visible)
    ensures forall l ::
              (l in layerKeys && Get(q, layerKeys[l]) != Some("0") && Get(q, layerKeys[l]) != Some("1"))
              ==> (l in shown <==> l in visible)
  {
    shown := visible;
    var todo := layerKeys.Keys;
    while todo != {}
      invariant todo <= layerKeys.Keys
      invariant forall l :: l in shown <==>
                  if l in todo then l in visible else ShownAfterStartup(layerKeys, q, visible, l)
      decreases todo
    {
      var layer :| layer in todo;
      var p := Get(q, layerKeys[layer]);
      if p == Some("0") {
        shown := shown - {layer};
      }
      if p == Some("1") {
        shown := shown + {layer};
      }
      todo := todo - {layer};
    }
  }

  datatype LayerEventKind = OverlayAdd | OverlayRemove

  datatype LayerEvent = LayerEvent(kind: LayerEventKind, layer: LayerId)

  /** The value an overlay event writes for its layer's key. */
  function Flag(kind: LayerEventKind): string {
    if kind == OverlayAdd then "1" else "0"
  }

  /** `onLayerChange`: a registered layer's key is set to `"1"` on add and
      `"0"` on remove; an unknown layer (or an empty key) changes nothing. */
  function OnLayerChange(layerKeys: map<LayerId, string>, q: Query, e: LayerEvent): (r: Query)
    ensures e.layer !in layerKeys || layerKeys[e.layer] == "" ==> r == q
    ensures e.layer in layerKeys && layerKeys[e.layer] != "" ==>
              var key := layerKeys[e.layer];
              && r.Keys == q.Keys + {key}
              && r[key] == (if e.kind == OverlayAdd then "1" else "0")
              && forall k :: k in q && k != key ==> r[k] == q[k]
  {
    if e.layer !in layerKeys || layerKeys[e.layer] == "" then q
    else q[layerKeys[e.layer] := Flag(e.kind)]
  }

  /** The query an overlay event writes brings that overlay back in the same
      state at the next load, and leaves every other overlay's startup state
      as it was. */
  lemma LayerChangeRestores(layerKeys: map<LayerId, string>, q: Query, visible: set<LayerId>,
                            e: LayerEvent)
    requires KeysDistinct(layerKeys)
    requires e.layer in layerKeys && layerKeys[e.layer] != ""
    ensures ShownAfterStartup(layerKeys, OnLayerChange(layerKeys, q, e), visible, e.layer)
            == (e.kind == OverlayAdd)
    ensures forall m :: m != e.layer ==>
              ShownAfterStartup(layerKeys, OnLayerChange(layerKeys, q, e), visible, m)
              == ShownAfterStartup(layerKeys, q, visible, m)
  {
  }

  /** Of two overlay events on the same layer, the second decides the
      written value: removing then adding ends with the key set to `"1"`. */
  lemma LayerChangeLastWins(layerKeys: map<LayerId, string>, q: Query, l: LayerId,
                            first: LayerEventKind, second: LayerEventKind)
    ensures OnLayerChange(layerKeys, OnLayerChange(layerKeys, q, LayerEvent(first, l)), LayerEvent(second, l))
         == OnLayerChange(layerKeys, q, LayerEvent(second, l))
  {
  }

  /** Saving the view touches no overlay: when no overlay key is `x`, `y` or
      `z`, every overlay starts up as before. */
  lemma ViewChangeKeepsOverlays(info: WorldManifest, layerKeys: map<LayerId, string>, q: Query,
                                cam: Camera, fixed: real -> string, visible: set<LayerId>, l: LayerId)
    requires info.renderSize != 0.0
    requires l in layerKeys ==> layerKeys[l] != "x" && layerKeys[l] != "y" && layerKeys[l] != "z"
    ensures ShownAfterStartup(layerKeys, OnViewChange(info, q, cam, fixed), visible, l)
         == ShownAfterStartup(layerKeys, q, visible, l)
  {
  }

  /** With the viewer's registry, `?lt=0` hides the stations overlay and
      `?lg=1` shows the tags overlay, whatever their earlier state. */
  lemma ViewerStartupExample(q: Query, visible: set<LayerId>)
    requires Get(q, StationsKey) == Some("0") && Get(q, TagsKey) == Some("1")
    ensures var layerKeys := map[0 := StationsKey, 1 := TagsKey, 2 := DebugKey];
            !ShownAfterStartup(layerKeys, q, visible, 0) && ShownAfterStartup(layerKeys, q, visible, 1)
  {
  }
}
