/**
 * Safe-zone validation: the safe-zone rectangle, the footprint of a tool at
 * its quantised rotation, and the containment test of that footprint.
 */
module Validation {
  import opened Types
  import opened JsNumber
  import RotationMath

  /** Workspace dimensions in millimetres (declared again in this file). */
  const WORKSPACE_WIDTH: real := 1200.0
  const WORKSPACE_DEPTH: real := 600.0

  /** Safe-zone inset from every edge, in millimetres. */
  const SAFE_ZONE_MARGIN: real := 10.0

  /** Half-extents of a footprint on the XZ plane. */
  datatype Footprint = Footprint(halfW: real, halfD: real) {
    function Swap(): Footprint {
      Footprint(halfD, halfW)
    }
  }

  /** The workspace rectangle inset by the margin on all four sides. */
  function GetSafeZoneBounds(): (b: SafeZoneBounds)
    ensures b.minX < b.maxX && b.minZ < b.maxZ
    ensures 0.0 < b.minX && b.maxX < WORKSPACE_WIDTH && 0.0 < b.minZ && b.maxZ < WORKSPACE_DEPTH
  {
    SafeZoneBounds(
      SAFE_ZONE_MARGIN,
      WORKSPACE_WIDTH - SAFE_ZONE_MARGIN,
      SAFE_ZONE_MARGIN,
      WORKSPACE_DEPTH - SAFE_ZONE_MARGIN)
  }

  /**
   * Half-extents of the footprint at the quarter turn nearest to `rotationY`:
   * width and depth are swapped on odd quarter turns.
   */
  function GetFootprintForRotation(rotationY: real, size: FootprintSize): (f: Footprint)
    ensures f == Footprint(size.w / 2.0, size.d / 2.0) || f == Footprint(size.d / 2.0, size.w / 2.0)
  {
    var norm := Rem(Rem(rotationY, RotationMath.PI * 2.0) + RotationMath.PI * 2.0, RotationMath.PI * 2.0);
    var quarterTurns := Round(norm / (RotationMath.PI / 2.0)) % 4;
    var evenSwap := quarterTurns == 0 || quarterTurns == 2;
    Footprint(
      (if evenSwap then size.w else size.d) / 2.0,
      (if evenSwap then size.d else size.w) / 2.0)
  }

  /** True when the footprint centred on `position` lies inside the safe zone, edges included. */
  function IsWithinSafeZone(position: Position3D, size: FootprintSize, rotationY: real): (ok: bool)
    ensures var f := GetFootprintForRotation(rotationY, size);
      ok <==> (&& position.x - f.halfW >= 10.0
               && position.x + f.halfW <= 1190.0
               && position.z - f.halfD >= 10.0
               && position.z + f.halfD <= 590.0)
  {
    var bounds := GetSafeZoneBounds();
    var f := GetFootprintForRotation(rotationY, size);
    var minX := position.x - f.halfW;
    var maxX := position.x + f.halfW;
    var minZ := position.z - f.halfD;
    var maxZ := position.z + f.halfD;
    minX >= bounds.minX && maxX <= bounds.maxX && minZ >= bounds.minZ && maxZ <= bounds.maxZ
  }

  // ---------------------------------------------------------------------------
  // Properties of the footprint

  /** The safe zone is exactly `[10, 1190] x [10, 590]`. */
  lemma SafeZoneBoundsValues()
    ensures GetSafeZoneBounds() == SafeZoneBounds(10.0, 1190.0, 10.0, 590.0)
  {
  }

  /**
   * The quarter-turn index computed inside GetFootprintForRotation is
   * RotationMath.RotationToQuarterTurns: even indices keep `(w, d)`, odd
   * ones swap them.
   */
  lemma FootprintByQuarterTurns(rotationY: real, size: FootprintSize)
    ensures var k := RotationMath.RotationToQuarterTurns(rotationY);
      GetFootprintForRotation(rotationY, size) ==
        if k % 2 == 0 then Footprint(size.w / 2.0, size.d / 2.0) else Footprint(size.d / 2.0, size.w / 2.0)
  {
  }

  /** The footprint has period `TAU`. */
  lemma {:induction false} FootprintPeriodic(rotationY: real, size: FootprintSize)
    ensures GetFootprintForRotation(rotationY + RotationMath.TAU, size) == GetFootprintForRotation(rotationY, size)
  {
    RotationMath.QuarterTurnsPeriodic(rotationY);
    FootprintByQuarterTurns(rotationY, size);
    FootprintByQuarterTurns(rotationY + RotationMath.TAU, size);
  }

  /** A further quarter turn swaps the half-extents, from every rotation. */
  lemma {:induction false} FootprintQuarterTurnSwaps(rotationY: real, size: FootprintSize)
    ensures GetFootprintForRotation(rotationY + RotationMath.QUARTER_TURN, size) ==
            GetFootprintForRotation(rotationY, size).Swap()
  {
    RotationMath.QuarterTurnsAdvance(rotationY);
    FootprintByQuarterTurns(rotationY, size);
    FootprintByQuarterTurns(rotationY + RotationMath.QUARTER_TURN, size);
  }

  /** At rotation 0 the footprint is `(w/2, d/2)`; at `PI/2` it is swapped. */
  lemma {:induction false} FootprintAtZeroAndQuarterTurn(size: FootprintSize)
    ensures GetFootprintForRotation(0.0, size) == Footprint(size.w / 2.0, size.d / 2.0)
    ensures GetFootprintForRotation(RotationMath.PI / 2.0, size) == Footprint(size.d / 2.0, size.w / 2.0)
  {
    assert GetFootprintForRotation(0.0, size) == Footprint(size.w / 2.0, size.d / 2.0) by {
      RotationMath.NormalizeIdentityOnRange(0.0);
      FloorUnique(0.5, 0);
      FootprintByQuarterTurns(0.0, size);
    }
    assert GetFootprintForRotation(RotationMath.QUARTER_TURN, size) == Footprint(size.d / 2.0, size.w / 2.0) by {
      RotationMath.NormalizeIdentityOnRange(RotationMath.QUARTER_TURN);
      FloorUnique(1.5, 1);
      FootprintByQuarterTurns(RotationMath.QUARTER_TURN, size);
    }
  }

  // ---------------------------------------------------------------------------
  // Properties of the containment test

  /** Containment stated without the footprint: four inequalities on `(w, d)` or on `(d, w)`. */
  lemma {:induction false} WithinSafeZoneByQuarterTurns(position: Position3D, size: FootprintSize, rotationY: real)
    ensures var k := RotationMath.RotationToQuarterTurns(rotationY);
      var (hw, hd) := if k % 2 == 0 then (size.w / 2.0, size.d / 2.0) else (size.d / 2.0, size.w / 2.0);
      IsWithinSafeZone(position, size, rotationY) <==>
        (10.0 <= position.x - hw && position.x + hw <= 1190.0 &&
         10.0 <= position.z - hd && position.z + hd <= 590.0)
  {
    FootprintByQuarterTurns(rotationY, size);
  }

  /** The height coordinate plays no part in containment. */
  lemma WithinSafeZoneIgnoresY(position: Position3D, y: real, size: FootprintSize, rotationY: real)
    ensures IsWithinSafeZone(position.(y := y), size, rotationY) == IsWithinSafeZone(position, size, rotationY)
  {
  }

  /** The 120 x 60 tool at the centre, unrotated, is inside. */
  lemma ScenarioCentreIsValid()
    ensures IsWithinSafeZone(Position3D(600.0, 20.0, 300.0), FootprintSize(120.0, 60.0, 40.0), 0.0)
  {
    FootprintAtZeroAndQuarterTurn(FootprintSize(120.0, 60.0, 40.0));
  }

  /** Unrotated at `x = 1150` (and at `x = 1195`) its right edge passes 1190. */
  lemma ScenarioNearRightEdgeIsInvalid()
    ensures !IsWithinSafeZone(Position3D(1150.0, 20.0, 300.0), FootprintSize(120.0, 60.0, 40.0), 0.0)
    ensures !IsWithinSafeZone(Position3D(1195.0, 20.0, 300.0), FootprintSize(120.0, 60.0, 40.0), 0.0)
  {
    FootprintAtZeroAndQuarterTurn(FootprintSize(120.0, 60.0, 40.0));
  }

  /** A quarter turn at `x = 1150` makes it valid: the half-width drops from 60 to 30. */
  lemma ScenarioQuarterTurnNearRightEdgeIsValid()
    ensures IsWithinSafeZone(Position3D(1150.0, 20.0, 300.0), FootprintSize(120.0, 60.0, 40.0), RotationMath.PI / 2.0)
  {
    FootprintAtZeroAndQuarterTurn(FootprintSize(120.0, 60.0, 40.0));
  }

  /** Touching the edge is valid: unrotated at `x = 1130` the right edge is exactly 1190. */
  lemma ScenarioTouchingEdgeIsValid()
    ensures IsWithinSafeZone(Position3D(1130.0, 20.0, 300.0), FootprintSize(120.0, 60.0, 40.0), 0.0)
  {
    FootprintAtZeroAndQuarterTurn(FootprintSize(120.0, 60.0, 40.0));
  }
}
