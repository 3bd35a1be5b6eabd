/** The coordinate mapper: the linear re-projection between world pixel
    coordinates (y down) and the map library's (lat, lng) (lat up), scaled by
    `render_size / tile_size`. */
module Geo {
  import opened Manifest

  datatype LatLng = LatLng(lat: real, lng: real)

  /** The scale factor from world units to map units. */
  function Ratio(info: WorldManifest): real
    requires info.tileSize != 0.0
  {
    info.renderSize / info.tileSize
  }

  /** `worldToLatLng`: latitude is the negated, scaled y; longitude the scaled x. */
  function WorldToLatLng(info: WorldManifest, x: real, y: real): (r: LatLng)
    requires info.tileSize != 0.0
    ensures r.lat == -y * Ratio(info) && r.lng == x * Ratio(info)
  {
    var ratio := info.renderSize / info.tileSize;
    LatLng(-y * ratio, x * ratio)
  }

  /** `latLngToWorld`: scales by the reciprocal ratio and flips the sign of lat. */
  function LatLngToWorld(info: WorldManifest, l: LatLng): (r: WorldPoint)
    requires info.renderSize != 0.0
    ensures info.tileSize != 0.0 ==> r.x * Ratio(info) == l.lng && r.y * Ratio(info) == -l.lat
  {
    var ratio := info.tileSize / info.renderSize;
    WorldPoint(l.lng * ratio, -l.lat * ratio)
  }

  /** `midPointToLatLng`: the projection of the centre of a bounding box. */
  function MidPointToLatLng(info: WorldManifest, bbox: BoundingBox): (r: LatLng)
    requires info.tileSize != 0.0
    ensures var a := WorldToLatLng(info, bbox.leftTop.x, bbox.leftTop.y);
            var b := WorldToLatLng(info, bbox.rightBottom.x, bbox.rightBottom.y);
            r == LatLng((a.lat + b.lat) / 2.0, (a.lng + b.lng) / 2.0)
  {
    WorldToLatLng(info, (bbox.leftTop.x + bbox.rightBottom.x) / 2.0,
                        (bbox.leftTop.y + bbox.rightBottom.y) / 2.0)
  }

  /** Mapping a world point to the map and back gives the same world point. */
  lemma WorldRoundTrip(info: WorldManifest, x: real, y: real)
    requires info.Scalable()
    ensures LatLngToWorld(info, WorldToLatLng(info, x, y)) == WorldPoint(x, y)
  {
  }

  /** Mapping a map point to the world and back gives the same map point. */
  lemma LatLngRoundTrip(info: WorldManifest, l: LatLng)
    requires info.Scalable()
    ensures var w := LatLngToWorld(info, l); WorldToLatLng(info, w.x, w.y) == l
  {
  }

  /** Distinct world points land on distinct map points. */
  lemma WorldToLatLngInjective(info: WorldManifest, p: WorldPoint, q: WorldPoint)
    requires info.Scalable()
    requires WorldToLatLng(info, p.x, p.y) == WorldToLatLng(info, q.x, q.y)
    ensures p == q
  {
  }

  /** For a positive ratio, moving down in the world (larger y) moves south
      on the map (smaller lat), and moving right moves east. */
  lemma WorldToLatLngOrientation(info: WorldManifest, p: WorldPoint, q: WorldPoint)
    requires info.tileSize != 0.0 && Ratio(info) > 0.0
    ensures p.y < q.y <==> WorldToLatLng(info, q.x, q.y).lat < WorldToLatLng(info, p.x, p.y).lat
    ensures p.x < q.x <==> WorldToLatLng(info, p.x, p.y).lng < WorldToLatLng(info, q.x, q.y).lng
  {
  }

  /** The midpoint helper picks the world centre of the box. */
  lemma MidPointIsCentre(info: WorldManifest, bbox: BoundingBox)
    requires info.Scalable()
    ensures LatLngToWorld(info, MidPointToLatLng(info, bbox))
         == WorldPoint((bbox.leftTop.x + bbox.rightBottom.x) / 2.0,
                       (bbox.leftTop.y + bbox.rightBottom.y) / 2.0)
  {
  }

  /** The corner of the tile layer's bounds for a 100 x 200 world at ratio 1. */
  lemma WorldMaxCornerExample(info: WorldManifest)
    requires info.renderSize == 256.0 && info.tileSize == 256.0
    requires info.worldMax == WorldPoint(100.0, 200.0)
    ensures WorldToLatLng(info, info.worldMax.x, info.worldMax.y) == LatLng(-200.0, 100.0)
  {
  }
}
