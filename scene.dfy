/**
 * What the tools see of the viewport and of the scene. Geometry is abstract:
 * a cursor position is a pair of reals, and the distance of an object from the
 * cursor and the distance between two cursor positions are given functions.
 */
module Scene {

  /** A graphical index: the stable identity of a displayed object. */
  type Gi = int

  /** A cursor position in geometric (not pixel) coordinates. */
  datatype Coor = Coor(x: real, y: real)

  /**
   * The viewport and its scene, as read during one pointer event:
   * - `scale`: the viewport's zoom factor (pixels are divided by it);
   * - `points`, `lines`, `circles`: the selectable objects of each kind, in
   *   the order the scene enumerates them;
   * - `dist(c, g)`: the distance of object `g` from position `c`
   *   (`objn.dist_from(coor)`);
   * - `gap(a, b)`: the distance between two positions (`np.linalg.norm(a - b)`).
   */
  datatype View = View(
    scale: real,
    points: seq<Gi>,
    lines: seq<Gi>,
    circles: seq<Gi>,
    dist: (Coor, Gi) -> real,
    gap: (Coor, Coor) -> real)
}
