/**
 * Workspace configuration: the workspace extents, the safe-zone margin and
 * the placeholder tool with its resting height and centred start position.
 */
module Workspace {
  import opened Types

  /** Workspace dimensions in millimetres. */
  const WORKSPACE_WIDTH: real := 1200.0
  const WORKSPACE_DEPTH: real := 600.0

  /** Safe-zone inset from every edge, in millimetres. */
  const SAFE_ZONE_MARGIN: real := 10.0

  /** Placeholder tool, `w x d x h` in millimetres. */
  const TOOL_SIZE: FootprintSize := FootprintSize(120.0, 60.0, 40.0)

  /** The tool rests on the plane: its centre is half its height up. */
  const TOOL_FIXED_Y: real := TOOL_SIZE.h / 2.0

  /** Start position, centred on the workspace at the resting height. */
  const INITIAL_POSITION: Position3D := Position3D(WORKSPACE_WIDTH / 2.0, TOOL_FIXED_Y, WORKSPACE_DEPTH / 2.0)

  /** Twice the margin is less than either extent, so the safe zone is not empty. */
  lemma SafeZoneNonEmpty()
    ensures 0.0 < SAFE_ZONE_MARGIN
    ensures 2.0 * SAFE_ZONE_MARGIN < WORKSPACE_WIDTH && 2.0 * SAFE_ZONE_MARGIN < WORKSPACE_DEPTH
  {
  }

  /** The resting height of the placeholder is 20. */
  lemma FixedYIsHalfHeight()
    ensures TOOL_FIXED_Y == TOOL_SIZE.h / 2.0 == 20.0
  {
  }

  /** The start position is `(600, 20, 300)`. */
  lemma InitialPositionValues()
    ensures INITIAL_POSITION == Position3D(600.0, 20.0, 300.0)
  {
  }
}
