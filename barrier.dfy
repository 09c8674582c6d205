/** The entities of a rockfall-protection barrier: supports (posts), anchors,
    cables, the parameter record and the configuration that bundles them. */
module Barrier {
  import opened Wrappers

  datatype Point = Point(x: real, y: real, z: real)

  /** A post: base and top points, its length and a display name. */
  datatype Support = Support(base: Point, top: Point, length: real, name: string)

  /** A ground-fixed attachment point. */
  datatype Anchor = Anchor(position: Point, name: string)

  /** A cable entry of the configuration. `start` and `end` are support or
      anchor ids; `kind` is the cable family (`rhs`, `tso`, `tsu`, `zw`, `sa`);
      `startCoords`/`endCoords` are copies of endpoint positions taken when the
      cable was built. `hasLoadCell` and `canHaveLoadCell` are `None` when the
      entry has no such key. */
  datatype Cable = Cable(
    start: string, end: string, kind: string, name: string,
    force: real, hasLoadCell: Option<bool>, color: string,
    startCoords: Point, endCoords: Point, canHaveLoadCell: Option<bool>)

  /** The barrier parameters; lengths in metres, angles in degrees. */
  datatype Params = Params(
    numSupports: int, a: real, b: real, d: real, h: real, f: real, L: real,
    theta: real, delta: real, delta1: real, delta2: real,
    epsilon: real, tau: real, phi: real,
    hasDelta1: bool, hasDelta2: bool)

  /** The whole configuration: three dictionaries keyed by id, and the
      parameters it was built from. */
  datatype BarrierConfig = BarrierConfig(
    supports: map<string, Support>,
    anchors: map<string, Anchor>,
    cables: map<string, Cable>,
    params: Params)
}
