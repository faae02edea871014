# Safe-zone placement validation, modelled in Dafny

This project models the placement core of a small 3D web tool that lets a
user drag, nudge and rotate a rigid tool inside a 1200 x 600 mm workspace and
tells them whether the tool's footprint stays inside the safe zone, the
workspace inset by a 10 mm margin.

The model has three parts.

- **Geometry.** These are pure functions. `RotationMath` brings a Y rotation
  into `[0, TAU)` and quantises it to a quarter-turn index. `Validation`
  builds the safe-zone rectangle and the footprint half-extents at that
  quarter turn, with width and depth swapped on odd turns. It also holds the
  inclusive containment test. `Workspace` and `Tools` hold the constants, the
  eight tool presets and the centred start position.
- **The drag hook** (`DragOnPlane`). This is a class with an Idle/Dragging
  flag. A move while dragging puts the shared mesh at the ray/plane
  intersection, which arrives as an optional `(x, z)`, at the fixed resting
  height. Pointer-up leaves Dragging and reports the final position once.
- **The validity cache** (`ToolObjectModel.ToolObject`). This class holds the
  shared mesh position, the rotation prop, the cached `lastValid` flag (which
  starts `true`) and the log of notifications sent to the host.
  `HandlePositionChange` always reports the position. It reports validity
  only when the flag flips. The per-frame watcher `Tick` reports only on a
  flip. The class invariant says that validity notifications alternate,
  starting with `false`. After a recompute or a frame, the flag equals the
  geometric truth.

Numbers are mathematical reals. `Math.PI` is the exact value of the IEEE-754
double that JavaScript uses. `QUARTER_TURN` and `TAU` are its exact half and
double. The remainder `%` truncates its quotient toward zero (`JsNumber.Rem`).
`Math.round` is `floor(x + 1/2)` (`JsNumber.Round`).

## Model

| member | source | states |
|---|---|---|
| JsNumber.Rem | src/lib/math.ts:5 | `a % b` for a positive divisor differs from `a` by a whole multiple of `b`, lies strictly between `-b` and `b`, and has the sign of `a`; together these fix its value |
| JsNumber.Round | src/lib/math.ts:10 | `Math.round(x)` is the integer `n` with `n - 1/2 <= x < n + 1/2` |
| RotationMath.NormalizeRotationY | src/lib/math.ts:3-6 | every real rotation normalises into `[0, TAU)` |
| RotationMath.NormalizeIsTurnRemainder | src/lib/math.ts:5 | `((r % TAU) + TAU) % TAU` equals the floored modulus `r - TAU*floor(r/TAU)` |
| RotationMath.NormalizeIdentityOnRange | src/lib/math.ts:5 | normalisation is the identity on `[0, TAU)` |
| RotationMath.NormalizeIdempotent | src/lib/math.ts:5 | normalising twice equals normalising once |
| RotationMath.NormalizePeriodic | src/lib/math.ts:5 | `normalizeRotationY(r + TAU) == normalizeRotationY(r)` for every r |
| RotationMath.RotationToQuarterTurns | src/lib/math.ts:8-11 | the quarter-turn index is always in 0..3 |
| RotationMath.QuarterTurnsPeriodic | src/lib/math.ts:10 | the index has period `TAU` |
| RotationMath.QuarterTurnsOfMultiple | src/lib/math.ts:10 | `k` quarter turns give index `k mod 4` for every integer k, negatives included |
| RotationMath.QuarterTurnsAdvance | src/lib/math.ts:10 | one more quarter turn adds 1 (mod 4) to the index, from every rotation |
| RotationMath.NearFullTurnWrapsToZero | src/lib/math.ts:10 | angles in the last eighth of a turn round to 4 and wrap to index 0 |
| Validation.GetSafeZoneBounds | src/validation/validation.ts:13-20 | the safe zone is a non-empty rectangle strictly inside the workspace |
| Validation.SafeZoneBoundsValues | src/validation/validation.ts:4-20 | the bounds are exactly minX=10, maxX=1190, minZ=10, maxZ=590 |
| Validation.GetFootprintForRotation | src/validation/validation.ts:26-38 | the half-extents are `(w/2, d/2)` or `(d/2, w/2)`, never anything else |
| Validation.FootprintByQuarterTurns | src/validation/validation.ts:31-37 | the index computed inside the footprint function is `rotationToQuarterTurns`; even keeps `(w/2, d/2)`, odd swaps |
| Validation.FootprintPeriodic | src/validation/validation.ts:31-37 | the footprint has period `TAU` |
| Validation.FootprintQuarterTurnSwaps | src/validation/validation.ts:31-37 | adding a quarter turn to any rotation swaps halfW and halfD |
| Validation.FootprintAtZeroAndQuarterTurn | src/validation/validation.ts:31-37 | rotation 0 gives `(w/2, d/2)`; rotation `PI/2` gives `(d/2, w/2)` |
| Validation.IsWithinSafeZone | src/validation/validation.ts:44-63 | true iff `x-halfW >= 10`, `x+halfW <= 1190`, `z-halfD >= 10` and `z+halfD <= 590`, edges included |
| Validation.WithinSafeZoneByQuarterTurns | src/validation/validation.ts:49-62 | containment as four inequalities on `(w, d)` for even quarter turns and on `(d, w)` for odd ones |
| Validation.WithinSafeZoneIgnoresY | src/validation/validation.ts:52-55 | containment does not depend on `position.y` |
| Validation.ScenarioCentreIsValid | src/validation/validation.ts:57-62 | the 120x60 tool at (600, 300), unrotated, is valid |
| Validation.ScenarioNearRightEdgeIsInvalid | src/validation/validation.ts:57-62 | unrotated at x=1150 or x=1195 it is invalid |
| Validation.ScenarioQuarterTurnNearRightEdgeIsValid | src/validation/validation.ts:57-62 | at x=1150 and rotation `PI/2` it is valid |
| Validation.ScenarioTouchingEdgeIsValid | src/validation/validation.ts:58-59 | touching the right edge exactly (x=1130, unrotated) is valid |
| Workspace.SafeZoneNonEmpty | src/constants/workspace.ts:4-8 | `2*margin` is less than both workspace extents |
| Workspace.FixedYIsHalfHeight | src/constants/workspace.ts:11-14 | `TOOL_FIXED_Y == TOOL_SIZE.h / 2 == 20` |
| Workspace.InitialPositionValues | src/constants/workspace.ts:17-21 | `INITIAL_POSITION == (600, 20, 300)` |
| Tools.GetInitialPosition | src/constants/tools.ts:71-73 | x and z are the workspace centre for every size; y is half the height |
| Tools.PresetsWellFormed | src/constants/tools.ts:11-69 | every preset has w, d, h > 0, and the cylinder has w == d |
| Tools.PresetIdsDistinct | src/constants/tools.ts:16-69 | preset ids are pairwise distinct |
| Tools.DefaultPresetStartsAtInitialPosition | src/constants/tools.ts:17-22 | the default preset is `TOOL_SIZE` and starts at `INITIAL_POSITION` |
| Tools.InitialPositionsAreSafe | src/constants/tools.ts:16-73 | every preset at its start position passes the containment test at every rotation |
| Tools.CentredFits | src/constants/tools.ts:71-73 | any tool whose width and depth are at most 580 fits at the centre at every rotation |
| DragOnPlane.MeshRef.constructor | src/components/ToolObject.tsx:53 | the mesh ref starts empty |
| DragOnPlane.DragHandler.constructor | src/hooks/useDragOnPlane.ts:14-22 | the hook starts Idle; `fixedY` defaults to 20 |
| DragOnPlane.DragHandler.HandlePointerDown | src/hooks/useDragOnPlane.ts:40-47 | pointer-down enters Dragging |
| DragOnPlane.DragHandler.OnMove | src/hooks/useDragOnPlane.ts:51-59 | while Dragging with a mesh and an intersection, x and z come from the intersection and y is `fixedY`; otherwise nothing changes |
| DragOnPlane.DragHandler.OnUp | src/hooks/useDragOnPlane.ts:60-68 | pointer-up always ends Idle; it reports the current position exactly once when leaving Dragging with a mesh and a callback, and otherwise reports nothing |
| ToolObjectModel.NotificationsAreTransitions | src/components/ToolObject.tsx:62-65 | in an alternating log the first validity notification is `false` and each one differs from the one before |
| ToolObjectModel.ConstantsAgree | src/components/ToolObject.tsx:22-25 | the component's size, resting height and start position, and the validation file's workspace constants, equal those of the workspace constants file |
| ToolObjectModel.InitialPositionIsSafe | src/components/ToolObject.tsx:22-25 | the start position is valid at every rotation |
| ToolObjectModel.ToolObject.constructor | src/components/ToolObject.tsx:53-55 | the cache starts `true`, with no mesh and no notifications |
| ToolObjectModel.ToolObject.Mount | src/components/ToolObject.tsx:117-123 | the mount effect puts the mesh at (600, 20, 300) and the cache agrees with it |
| ToolObjectModel.ToolObject.HandlePositionChange | src/components/ToolObject.tsx:57-68 | always reports the position; sets the cache to the containment result and reports it only if it flipped; keeps validity notifications alternating |
| ToolObjectModel.ToolObject.Nudge | src/components/ToolObject.tsx:92-103 | adds `(dx, dz)`, passes the result through `clampPosition` when one is given, leaves y and rotation alone, then recomputes; does nothing without a mesh |
| ToolObjectModel.ToolObject.GetPosition | src/components/ToolObject.tsx:104-106 | the live position, or `INITIAL_POSITION` when there is no mesh |
| ToolObjectModel.ToolObject.Reset | src/components/ToolObject.tsx:107-111 | moves the mesh to `INITIAL_POSITION` at any rotation without touching the rotation, recomputes, and so ends valid; does nothing without a mesh |
| ToolObjectModel.ToolObject.Tick | src/components/ToolObject.tsx:129-139 | afterwards the cache is the geometric truth; on a flip it reports validity then position; with no change since the last recompute it does nothing |
| ToolObjectModel.ToolObject.SetRotation | src/components/ToolObject.tsx:125-127 | a new rotation prop recomputes nothing until the next frame |
| ToolObjectModel.ToolObject.PointerDown | src/components/ToolObject.tsx:81-87 | pointer-down on the mesh starts a drag in the shared hook |
| ToolObjectModel.ToolObject.PointerMove | src/components/ToolObject.tsx:81-87 | a drag move moves the shared mesh but sends no notification and leaves the cache alone |
| ToolObjectModel.ToolObject.PointerUp | src/components/ToolObject.tsx:81-87 | the end of a drag reports through `handlePositionChange`, so the cache agrees with the final position |
| ToolObjectModel.NudgePastEdgeSession | src/components/ToolObject.tsx:92-139 | nudging past the edge sends one position and exactly one `false`; the frames after it are silent |
| ToolObjectModel.DragPastEdgeSession | src/components/ToolObject.tsx:81-139 | drag moves send nothing; the next frame reports `false` and the position; the release reports the position once |
| ToolObjectModel.RotateBackInsideSession | src/components/ToolObject.tsx:92-139 | at x=1150 a quarter turn alone makes the next frame report `true`; a later reset reports only the position |
| ToolObjectModel.UnmountedSession | src/components/ToolObject.tsx:92-111 | with no mesh, nudge and reset do nothing and the position reads as (600, 20, 300) |

## What the code does

- `ToolObject.tsx:19` imports `clampToSafeZone` from the validation file,
  but `validation.ts` does not define it. The model takes the clamp function
  as an opaque optional parameter of `Nudge`.
- `ToolObject.tsx` declares a `clampMode` prop. At lines 81-87 it passes
  `clampPosition` and `onDragChange` to the drag hook, but the hook's options
  (useDragOnPlane.ts:8-12) accept neither. A drag never clamps and never
  reports its state.
- Drag moves do not recompute validity (useDragOnPlane.ts:51-59). Only the
  frame watcher and the pointer-up report see them (`DragPastEdgeSession`).
- On a flip, the frame watcher (ToolObject.tsx:129-139) reports the
  position as well as the validity.
- A rotation change (ToolObject.tsx:125-127) recomputes nothing by itself.
  The next frame does.
- The component always validates with its own fixed 120 x 60 x 40 size
  (ToolObject.tsx:22). `TOOL_PRESETS` is used nowhere outside `tools.ts`.
- `Math.round` takes the integer `n` with `n - 1/2 <= x < n + 1/2`, so
  halves go up. At math.ts:10 and validation.ts:32 its argument is never
  negative.

## Left out

- `clampToSafeZone` and the clamp mode: the function is not defined in the code, so the model does not invent a body for it.
- Ray casting, pointer coordinates, the plane intersection and pointer capture: these are three.js and DOM calls, reduced to an optional `(x, z)` input.
- React rendering: `setIsValid`, colours and materials, `BoundsHelper`, and the memo and effect dependency lists.
- Unmounting the mesh: the model mounts once and never removes the mesh.
- Preset switching: no file of the code switches presets, and `ToolObject` always validates its own `TOOL_SIZE`. The rotate button (App.tsx:14-16) becomes a `SetRotation` input.
- Floating point: the arithmetic is exact over the reals. Rounding near a quarter-turn boundary is not modelled.
- The camera reporter, scene and colour constants, vector conversion, keyboard filtering, the model-generation script and the release script: these are presentation, I/O or tooling.
