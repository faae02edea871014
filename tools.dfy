/**
 * The tool presets offered to the user and the centred start position for a
 * preset's size.
 */
module Tools {
  import opened Types
  import Workspace
  import Validation

  /** How a preset is drawn; `Custom` presets load an external model. */
  datatype ToolGeometry = Box | Cylinder | Custom

  /** A preset: for a cylinder, `w` and `d` are both the diameter. */
  datatype ToolPreset = ToolPreset(
    id: string,
    labelText: string,
    glbPath: Option<string>,
    size: FootprintSize,
    geometry: ToolGeometry)

  const TOOL_PRESETS: seq<ToolPreset> := [
    ToolPreset("box-default", "Box (default)", None, FootprintSize(120.0, 60.0, 40.0), Box),
    ToolPreset("box-small", "Box small", None, FootprintSize(60.0, 60.0, 30.0), Box),
    ToolPreset("box-large", "Box large", None, FootprintSize(180.0, 90.0, 50.0), Box),
    ToolPreset("cylinder", "Cylinder", None, FootprintSize(80.0, 80.0, 45.0), Cylinder),
    ToolPreset("cnc-spindle", "CNC Spindle", Some("/models/cnc-spindle.glb"), FootprintSize(120.0, 80.0, 140.0), Custom),
    ToolPreset("l-fixture", "L-Fixture", Some("/models/l-fixture.glb"), FootprintSize(130.0, 45.0, 100.0), Custom),
    ToolPreset("stepped-fixture", "Stepped Fixture", Some("/models/stepped-fixture.glb"), FootprintSize(140.0, 75.0, 90.0), Custom),
    ToolPreset("drill-press", "Drill Press", Some("/models/drill-press.glb"), FootprintSize(120.0, 70.0, 165.0), Custom)
  ]

  /** Centre of the workspace, resting on the plane for a tool of this size. */
  function GetInitialPosition(size: FootprintSize): (p: Position3D)
    ensures p.x == Workspace.INITIAL_POSITION.x && p.z == Workspace.INITIAL_POSITION.z
    ensures p.y == size.h / 2.0
  {
    Position3D(Workspace.WORKSPACE_WIDTH / 2.0, size.h / 2.0, Workspace.WORKSPACE_DEPTH / 2.0)
  }

  /** Every preset has positive dimensions, and cylinders are round. */
  lemma PresetsWellFormed()
    ensures forall p | p in TOOL_PRESETS :: p.size.w > 0.0 && p.size.d > 0.0 && p.size.h > 0.0
    ensures forall p | p in TOOL_PRESETS && p.geometry == Cylinder :: p.size.w == p.size.d
  {
    forall i | 0 <= i < |TOOL_PRESETS|
      ensures TOOL_PRESETS[i].size.w > 0.0 && TOOL_PRESETS[i].size.d > 0.0 && TOOL_PRESETS[i].size.h > 0.0
      ensures TOOL_PRESETS[i].geometry == Cylinder ==> TOOL_PRESETS[i].size.w == TOOL_PRESETS[i].size.d
    {
    }
  }

  /** No two presets share an id. */
  lemma PresetIdsDistinct()
    ensures forall i, j | 0 <= i < j < |TOOL_PRESETS| :: TOOL_PRESETS[i].id != TOOL_PRESETS[j].id
  {
  }

  /** For the default preset the start position is the workspace's INITIAL_POSITION. */
  lemma DefaultPresetStartsAtInitialPosition()
    ensures TOOL_PRESETS[0].size == Workspace.TOOL_SIZE
    ensures GetInitialPosition(TOOL_PRESETS[0].size) == Workspace.INITIAL_POSITION
  {
  }

  /** Every preset placed at its start position is inside the safe zone, at every rotation. */
  lemma {:induction false} InitialPositionsAreSafe(rotationY: real)
    ensures forall p | p in TOOL_PRESETS ::
      Validation.IsWithinSafeZone(GetInitialPosition(p.size), p.size, rotationY)
  {
    forall p | p in TOOL_PRESETS
      ensures Validation.IsWithinSafeZone(GetInitialPosition(p.size), p.size, rotationY)
    {
      CentredFits(p.size, rotationY);
    }
  }

  /**
   * A tool no wider or deeper than 580 (the safe zone's smaller extent) fits
   * at the centre whatever its rotation.
   */
  lemma {:induction false} CentredFits(size: FootprintSize, rotationY: real)
    requires size.w <= 580.0 && size.d <= 580.0
    ensures Validation.IsWithinSafeZone(GetInitialPosition(size), size, rotationY)
  {
    var f := Validation.GetFootprintForRotation(rotationY, size);
    assert f.halfW <= 290.0 && f.halfD <= 290.0;
  }
}
