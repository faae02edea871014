/**
 * The drag hook: an Idle/Dragging flag driven by pointer-down, pointer-move
 * and pointer-up. A move while dragging puts the mesh at the point where the
 * pointer's ray meets the ground plane, at the fixed resting height; the
 * release reports the final position once.
 */
module DragOnPlane {
  import opened Types

  /** Resting height used when the caller gives none. */
  const DEFAULT_FIXED_Y: real := 20.0

  /** A React ref to the tool's mesh: the mesh's live position, or None while no mesh is mounted. */
  class MeshRef {
    var current: Option<Position3D>

    constructor ()
      ensures current == None
    {
      current := None;
    }
  }

  /**
   * The hook's state for one mesh. The ray/plane intersection computed from
   * the pointer event arrives as an optional `(x, z)`; `None` is a ray
   * parallel to the plane.
   */
  class DragHandler {
    const meshRef: MeshRef
    const fixedY: real
    /** Whether the caller passed `onPositionChange`. */
    const hasPositionCallback: bool
    var isDragging: bool

    constructor (meshRef: MeshRef, fixedY: Option<real>, hasPositionCallback: bool)
      ensures this.meshRef == meshRef && this.hasPositionCallback == hasPositionCallback
      ensures this.fixedY == fixedY.GetOr(DEFAULT_FIXED_Y)
      ensures !isDragging
    {
      this.meshRef := meshRef;
      this.fixedY := fixedY.GetOr(DEFAULT_FIXED_Y);
      this.hasPositionCallback := hasPositionCallback;
      isDragging := false;
    }

    /** Pointer-down on the mesh: Idle or Dragging becomes Dragging. */
    method HandlePointerDown()
      modifies this
      ensures isDragging
    {
      isDragging := true;
    }

    /**
     * Pointer-move: only while dragging with a mounted mesh and an
     * intersection does the mesh move, to `(x, fixedY, z)`.
     */
    method OnMove(hit: Option<(real, real)>)
      modifies meshRef
      ensures isDragging && old(meshRef.current).Some? && hit.Some? ==>
        meshRef.current == Some(Position3D(hit.value.0, fixedY, hit.value.1))
      ensures !(isDragging && old(meshRef.current).Some? && hit.Some?) ==>
        meshRef.current == old(meshRef.current)
    {
      if !isDragging || meshRef.current.None? {
        return;
      }
      if hit.Some? {
        var (x, z) := hit.value;
        var p := meshRef.current.value;
        p := p.(x := x);
        p := p.(z := z);
        p := p.(y := fixedY);
        meshRef.current := Some(p);
      }
    }

    /**
     * Pointer-up: leaves Dragging and reports the mesh's position once, when
     * there is a mesh and a callback; while Idle it reports nothing.
     */
    method OnUp() returns (reported: Option<Position3D>)
      modifies this
      ensures !isDragging
      ensures reported.Some? <==> old(isDragging) && meshRef.current.Some? && hasPositionCallback
      ensures reported.Some? ==> reported == meshRef.current
    {
      reported := None;
      if isDragging {
        isDragging := false;
        if meshRef.current.Some? && hasPositionCallback {
          reported := meshRef.current;
        }
      }
    }
  }
}
