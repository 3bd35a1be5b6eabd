/** The world manifest (`mapshot.json`) as an immutable record. Numbers are
    `real`; the JSON shape is fixed, optional parts are `Option`s. */
module Manifest {
  import opened Wrappers

  /** A position in world pixel coordinates: y grows downwards. */
  datatype WorldPoint = WorldPoint(x: real, y: real)

  datatype BoundingBox = BoundingBox(leftTop: WorldPoint, rightBottom: WorldPoint)

  datatype Station = Station(boundingBox: BoundingBox, backerName: string)

  datatype Tag = Tag(position: WorldPoint, forceName: string, text: string)

  /** `stations` and `tags` are `None` when the field is absent or holds a
      value that is not iterable; `player` is `None` when it is falsy. */
  datatype WorldManifest = WorldManifest(
    renderSize: real,
    tileSize: real,
    zoomMin: int,
    zoomMax: int,
    worldMin: WorldPoint,
    worldMax: WorldPoint,
    player: Option<WorldPoint>,
    stations: Option<seq<Station>>,
    tags: Option<seq<Tag>>)
  {
    /** Both tile sizes non-zero: the two re-projections divide by them. */
    predicate Scalable() {
      renderSize != 0.0 && tileSize != 0.0
    }
  }
}
