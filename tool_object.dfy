/**
 * The placement controller behind the tool's mesh. It keeps the mesh's live
 * position (shared with the drag hook), the rotation it is drawn at, a
 * cached validity flag that starts `true`, and the notifications it sends:
 * a position notification on every explicit update, and a validity
 * notification only when the cached flag flips. A per-frame watcher
 * re-checks the live position and notifies only on a flip.
 */
module ToolObjectModel {
  import opened Types
  import Validation
  import Workspace
  import RotationMath
  import opened DragOnPlane

  /** The component's own copies of the tool size, resting height and start position. */
  const TOOL_SIZE: FootprintSize := FootprintSize(120.0, 60.0, 40.0)
  const FIXED_Y: real := TOOL_SIZE.h / 2.0
  const INITIAL_POSITION: Position3D := Position3D(600.0, FIXED_Y, 300.0)

  /** A notification sent to the host: `onPositionChange` or `onValidationChange`. */
  datatype Event = PositionChanged(pos: Position3D) | ValidityChanged(valid: bool)

  /** The values of the validity notifications in a log, in order. */
  function ValidityLog(events: seq<Event>): seq<bool>
  {
    if events == [] then []
    else (if events[0].ValidityChanged? then [events[0].valid] else []) + ValidityLog(events[1..])
  }

  /** Validity values that alternate, starting from `false`: each one flips the one before. */
  ghost predicate Alternating(vs: seq<bool>)
  {
    forall i :: 0 <= i < |vs| ==> vs[i] == (i % 2 == 1)
  }

  lemma {:induction false} ValidityLogAppend(a: seq<Event>, b: seq<Event>)
    ensures ValidityLog(a + b) == ValidityLog(a) + ValidityLog(b)
  {
    if a == [] {
      assert a + b == b;
    } else {
      var head := if a[0].ValidityChanged? then [a[0].valid] else [];
      assert (a + b)[0] == a[0];
      assert (a + b)[1..] == a[1..] + b;
      ValidityLogAppend(a[1..], b);
      calc {
        ValidityLog(a + b);
        head + ValidityLog(a[1..] + b);
        head + (ValidityLog(a[1..]) + ValidityLog(b));
        ValidityLog(a) + ValidityLog(b);
      }
    }
  }

  /**
   * In an alternating log every notification differs from the one before it,
   * and the first one reports `false`.
   */
  lemma NotificationsAreTransitions(vs: seq<bool>)
    requires Alternating(vs)
    ensures |vs| > 0 ==> !vs[0]
    ensures forall i :: 0 < i < |vs| ==> vs[i] != vs[i - 1]
  {
  }

  /** The three copies of the workspace constants agree. */
  lemma ConstantsAgree()
    ensures TOOL_SIZE == Workspace.TOOL_SIZE && FIXED_Y == Workspace.TOOL_FIXED_Y
    ensures INITIAL_POSITION == Workspace.INITIAL_POSITION
    ensures Validation.WORKSPACE_WIDTH == Workspace.WORKSPACE_WIDTH
    ensures Validation.WORKSPACE_DEPTH == Workspace.WORKSPACE_DEPTH
    ensures Validation.SAFE_ZONE_MARGIN == Workspace.SAFE_ZONE_MARGIN
  {
  }

  /** The start position is inside the safe zone at every rotation. */
  lemma {:induction false} InitialPositionIsSafe(rotationY: real)
    ensures Validation.IsWithinSafeZone(INITIAL_POSITION, TOOL_SIZE, rotationY)
  {
    var f := Validation.GetFootprintForRotation(rotationY, TOOL_SIZE);
    assert f.halfW <= 60.0 && f.halfD <= 60.0;
  }

  class ToolObject {
    const meshRef: MeshRef
    const drag: DragHandler
    /** The `rotationY` prop. */
    var rotationY: real
    /** `lastValidRef.current`. */
    var lastValid: bool
    /** Every notification sent so far, oldest first. */
    var events: seq<Event>

    /**
     * The drag hook shares this mesh and reports to handlePositionChange; the
     * validity notifications alternate and the cache holds the last one sent
     * (or `true` before any).
     */
    ghost predicate Valid()
      reads this
    {
      && drag.meshRef == meshRef
      && drag.fixedY == FIXED_Y
      && drag.hasPositionCallback
      && Alternating(ValidityLog(events))
      && lastValid == (|ValidityLog(events)| % 2 == 0)
    }

    /** The cached flag is the geometric truth for the live position. */
    ghost predicate Synced()
      reads this, meshRef
    {
      meshRef.current.Some? ==>
        lastValid == Validation.IsWithinSafeZone(meshRef.current.value, TOOL_SIZE, rotationY)
    }

    constructor (rotationY: real)
      ensures Valid() && fresh(meshRef) && fresh(drag)
      ensures this.rotationY == rotationY && lastValid && events == []
      ensures meshRef.current == None && !drag.isDragging
    {
      var m := new MeshRef();
      var d := new DragHandler(m, Some(FIXED_Y), true);
      meshRef := m;
      drag := d;
      this.rotationY := rotationY;
      lastValid := true;
      events := [];
    }

    /** The mesh mounts and the mount effect puts it at the start position. */
    method Mount()
      requires Valid() && events == []
      modifies meshRef
      ensures Valid() && Synced()
      ensures meshRef.current == Some(INITIAL_POSITION)
    {
      meshRef.current := Some(INITIAL_POSITION);
      InitialPositionIsSafe(rotationY);
    }

    /**
     * The shared recompute: report the position, then compare its validity
     * with the cache and report the new value only on a flip.
     */
    method HandlePositionChange(pos: Position3D)
      requires Valid()
      modifies this
      ensures Valid() && rotationY == old(rotationY)
      ensures lastValid == Validation.IsWithinSafeZone(pos, TOOL_SIZE, rotationY)
      ensures events == old(events) + [PositionChanged(pos)] +
        (if lastValid != old(lastValid) then [ValidityChanged(lastValid)] else [])
    {
      events := events + [PositionChanged(pos)];
      var valid := Validation.IsWithinSafeZone(pos, TOOL_SIZE, rotationY);
      if lastValid != valid {
        lastValid := valid;
        events := events + [ValidityChanged(valid)];
      }
      ValidityLogAppend(old(events), [PositionChanged(pos)]);
      if lastValid != old(lastValid) {
        ValidityLogAppend(old(events) + [PositionChanged(pos)], [ValidityChanged(lastValid)]);
      }
    }

    /**
     * Moves the mesh by `(dx, dz)`, through `clampPosition` when the clamp
     * mode supplies one, and recomputes; nothing happens without a mesh.
     */
    method Nudge(dx: real, dz: real, clampPosition: Option<Position3D -> Position3D>)
      requires Valid()
      modifies this, meshRef
      ensures Valid() && rotationY == old(rotationY)
      ensures old(meshRef.current).None? ==>
        meshRef.current == None && lastValid == old(lastValid) && events == old(events)
      ensures old(meshRef.current).Some? ==>
        var p := old(meshRef.current).value;
        var tentative := p.(x := p.x + dx, z := p.z + dz);
        var moved := if clampPosition.Some? then clampPosition.value(tentative) else tentative;
        && meshRef.current == Some(moved)
        && Synced()
        && events == old(events) + [PositionChanged(moved)] +
             (if lastValid != old(lastValid) then [ValidityChanged(lastValid)] else [])
    {
      if meshRef.current.None? {
        return;
      }
      var p := meshRef.current.value;
      var tentative := p.(x := p.x + dx);
      tentative := tentative.(z := tentative.z + dz);
      if clampPosition.Some? {
        meshRef.current := Some(clampPosition.value(tentative));
      } else {
        meshRef.current := Some(tentative);
      }
      HandlePositionChange(meshRef.current.value);
    }

    /** The live position, or the start position when no mesh is mounted. */
    method GetPosition() returns (p: Position3D)
      ensures meshRef.current.Some? ==> p == meshRef.current.value
      ensures meshRef.current.None? ==> p == Workspace.INITIAL_POSITION
    {
      p := meshRef.current.GetOr(INITIAL_POSITION);
    }

    /**
     * Puts the mesh back at the start position, whatever the rotation, and
     * recomputes; nothing happens without a mesh.
     */
    method Reset()
      requires Valid()
      modifies this, meshRef
      ensures Valid() && rotationY == old(rotationY)
      ensures old(meshRef.current).None? ==>
        meshRef.current == None && lastValid == old(lastValid) && events == old(events)
      ensures old(meshRef.current).Some? ==>
        && meshRef.current == Some(Workspace.INITIAL_POSITION)
        && lastValid
        && events == old(events) + [PositionChanged(Workspace.INITIAL_POSITION)] +
             (if old(lastValid) then [] else [ValidityChanged(true)])
    {
      if meshRef.current.None? {
        return;
      }
      meshRef.current := Some(INITIAL_POSITION);
      InitialPositionIsSafe(rotationY);
      HandlePositionChange(meshRef.current.value);
    }

    /**
     * The per-frame watcher: re-checks the live position and, only on a
     * flip, updates the cache and reports the validity and then the position.
     */
    method Tick()
      requires Valid()
      modifies this
      ensures Valid() && Synced() && rotationY == old(rotationY)
      ensures old(Synced()) ==> lastValid == old(lastValid) && events == old(events)
      ensures meshRef.current.None? ==> lastValid == old(lastValid) && events == old(events)
      ensures meshRef.current.Some? ==>
        events == old(events) +
          (if lastValid != old(lastValid)
           then [ValidityChanged(lastValid), PositionChanged(meshRef.current.value)]
           else [])
    {
      if meshRef.current.None? {
        return;
      }
      var pos := meshRef.current.value;
      var valid := Validation.IsWithinSafeZone(pos, TOOL_SIZE, rotationY);
      if lastValid != valid {
        lastValid := valid;
        events := events + [ValidityChanged(valid), PositionChanged(pos)];
        ValidityLogAppend(old(events), [ValidityChanged(valid), PositionChanged(pos)]);
        var flip := [ValidityChanged(valid), PositionChanged(pos)];
        assert flip[1..] == [PositionChanged(pos)] && flip[1..][1..] == [];
        assert ValidityLog([PositionChanged(pos)]) == [];
        assert ValidityLog(flip) == [valid] + ValidityLog([PositionChanged(pos)]);
      }
    }

    /** A new `rotationY` prop: nothing is recomputed until the next frame. */
    method SetRotation(rotationY: real)
      requires Valid()
      modifies this
      ensures Valid() && this.rotationY == rotationY
      ensures lastValid == old(lastValid) && events == old(events)
    {
      this.rotationY := rotationY;
    }

    /** Pointer-down on the mesh starts a drag. */
    method PointerDown()
      requires Valid()
      modifies drag
      ensures Valid() && drag.isDragging
    {
      drag.HandlePointerDown();
    }

    /** Pointer-move, routed to the drag hook: the mesh may move, but nothing is recomputed. */
    method PointerMove(hit: Option<(real, real)>)
      requires Valid()
      modifies meshRef
      ensures Valid()
      ensures drag.isDragging && old(meshRef.current).Some? && hit.Some? ==>
        meshRef.current == Some(Position3D(hit.value.0, FIXED_Y, hit.value.1))
      ensures !(drag.isDragging && old(meshRef.current).Some? && hit.Some?) ==>
        meshRef.current == old(meshRef.current)
    {
      drag.OnMove(hit);
    }

    /** Pointer-up, routed to the drag hook: a finished drag reports through handlePositionChange. */
    method PointerUp()
      requires Valid()
      modifies this, drag
      ensures Valid() && !drag.isDragging && rotationY == old(rotationY)
      ensures !(old(drag.isDragging) && meshRef.current.Some?) ==>
        lastValid == old(lastValid) && events == old(events)
      ensures old(drag.isDragging) && meshRef.current.Some? ==>
        && Synced()
        && events == old(events) + [PositionChanged(meshRef.current.value)] +
             (if lastValid != old(lastValid) then [ValidityChanged(lastValid)] else [])
    {
      var reported := drag.OnUp();
      if reported.Some? {
        HandlePositionChange(reported.value);
      }
    }
  }

  // ---------------------------------------------------------------------------
  // Sessions

  /**
   * Nudging the centred tool 550 to the right crosses the edge: one position
   * and exactly one `false` notification, and the following frames are silent.
   */
  method NudgePastEdgeSession() returns (log: seq<Event>)
    ensures log == [PositionChanged(Position3D(1150.0, 20.0, 300.0)), ValidityChanged(false)]
  {
    var tool := new ToolObject(0.0);
    tool.Mount();
    Validation.ScenarioNearRightEdgeIsInvalid();
    tool.Nudge(550.0, 0.0, None);
    tool.Tick();
    tool.Tick();
    log := tool.events;
  }

  /**
   * Dragging to `x = 1150` moves the mesh without a notification; the next
   * frame reports the flip to `false` and the position, and the release
   * reports the position once more without a second validity notification.
   */
  method DragPastEdgeSession() returns (afterMoves: seq<Event>, log: seq<Event>)
    ensures afterMoves == []
    ensures log == [ValidityChanged(false), PositionChanged(Position3D(1150.0, 20.0, 300.0)),
                    PositionChanged(Position3D(1150.0, 20.0, 300.0))]
  {
    var tool := new ToolObject(0.0);
    tool.Mount();
    tool.PointerMove(Some((900.0, 100.0)));
    tool.PointerDown();
    tool.PointerMove(Some((1150.0, 300.0)));
    tool.PointerMove(None);
    afterMoves := tool.events;
    Validation.ScenarioNearRightEdgeIsInvalid();
    tool.Tick();
    tool.PointerUp();
    tool.PointerUp();
    log := tool.events;
  }

  /**
   * At `x = 1150` a quarter turn alone makes the tool valid again, seen by
   * the next frame; a reset then reports only the position.
   */
  method RotateBackInsideSession() returns (log: seq<Event>)
    ensures log == [PositionChanged(Position3D(1150.0, 20.0, 300.0)), ValidityChanged(false),
                    ValidityChanged(true), PositionChanged(Position3D(1150.0, 20.0, 300.0)),
                    PositionChanged(Position3D(600.0, 20.0, 300.0))]
  {
    var tool := new ToolObject(0.0);
    tool.Mount();
    Validation.ScenarioNearRightEdgeIsInvalid();
    tool.Nudge(550.0, 0.0, None);
    tool.SetRotation(RotationMath.PI / 2.0);
    Validation.ScenarioQuarterTurnNearRightEdgeIsValid();
    tool.Tick();
    tool.Reset();
    log := tool.events;
  }

  /** Before the mesh mounts, nudge and reset do nothing and the position reads as the start. */
  method UnmountedSession() returns (p: Position3D, log: seq<Event>)
    ensures p == Position3D(600.0, 20.0, 300.0) && log == []
  {
    var tool := new ToolObject(0.0);
    tool.Nudge(10.0, 10.0, None);
    tool.Reset();
    tool.Tick();
    p := tool.GetPosition();
    log := tool.events;
  }
}
