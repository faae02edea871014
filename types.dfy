/**
 * Value types shared by the placement code: a tool's nominal size, the
 * safe-zone rectangle, a point in the Y-up workspace (millimetres), and an
 * optional value for the places where the code reads a nullable reference.
 */
module Types {

  datatype Option<T> = None | Some(value: T) {
    function GetOr(default: T): T {
      match this
      case Some(v) => v
      case None => default
    }
  }

  /** Nominal tool dimensions: width along X, depth along Z, height along Y. */
  datatype FootprintSize = FootprintSize(w: real, d: real, h: real)

  /** The valid placement rectangle on the XZ plane. */
  datatype SafeZoneBounds = SafeZoneBounds(minX: real, maxX: real, minZ: real, maxZ: real)

  /** A position in the workspace; also the value of a mesh's `position`. */
  datatype Position3D = Position3D(x: real, y: real, z: real)
}
