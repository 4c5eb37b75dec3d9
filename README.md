# A verified model of the game's editing and gameplay logic

This project models the logic of a Unity third-person building and shooting prototype in Dafny. It covers two parts:

- The post-processing **curve editor** (`CurveEditor`). This is its curve registry, the keyframe selection and its repair, the dirty flag, and its key edits. The edits are: moving a key with its time clamped against its neighbours, dragging a tangent handle (side restriction, vertical tangents, linked tangents), creating keys from the context menu, and the neighbour search that estimates a slope. Also modelled are the affine maps between curve space and canvas space and the segments the editor draws.
- The **gameplay state machines**:
  - the build tool (`BuildMode`): grid snapping with C#'s truncated float remainder, the preview toggle, the free-spot test and placing pieces;
  - the tool switch (`ModeChange`);
  - the rate-limited hitscan weapon (`WeaponController`);
  - the bomb's layer-mask dispatch (`Bomb`);
  - the 32-bit hit-point counter (`Destroyable`).

The files:

- `common.dfy`: `Option`, `Result`, `Outcome`, `Vec3`.
- `curve_math.dfy`: the editor's pure arithmetic (module `CurveMath`).
- `curve_editor.dfy`: the `AnimationCurve` and `CurveEditor` classes (module `CurveEditing`).
- `build_mode.dfy` (`Building`), `mode_change.dfy` (`Modes`), `weapon.dfy` (`Weapon`), `bomb.dfy` (`Exploding`) and `destroyable.dfy` (`Destroying`).

How the model represents the source:

- Objects whose fields the source updates in place are classes whose methods state their new state. What those methods promise is stated about specification functions, and those functions get lemmas of their own.
- Times, values and positions are `real`.
- A tangent is `Finite(slope) | PosInf | NegInf`.
- A curve is a `seq<Keyframe>`.
- `Destroyable.life` is a C# `int`, so it has wrap-around.
- Unity layer masks are `bv32`.
- The engine functions the editor calls but does not define are parameters: `AnimationCurve.Evaluate`, `AnimationCurve.AddKey`, `AnimationCurve.RemoveKey` and `Mathf.Approximately`.
- Physics query results, input keys, the clock and the camera pose are inputs.

## Model

| member | source | states |
|---|---|---|
| CurveMath.Clamp01 | Assets/PostProcessing/Editor/Utils/CurveEditor.cs:596-597 | Mathf.Lerp's parameter is clamped into [0, 1], and one already inside is kept |
| CurveMath.Lerp | Assets/PostProcessing/Editor/Utils/CurveEditor.cs:596-597 | the result always lies between the two ends; for t in [0, 1] it is a + (b - a) t |
| CurveMath.CurveToCanvas | Assets/PostProcessing/Editor/Utils/CurveEditor.cs:581-588 | the bounds' edges go to the curve area's edges with y flipped: xMin to xMin and xMax to xMax, yMax to yMin and yMin to yMax |
| CurveMath.KeyToCanvas | Assets/PostProcessing/Editor/Utils/CurveEditor.cs:576-579 | a key is drawn at the canvas point of its (time, value); for a key inside bounds of positive size and a curve area of non-zero size, CanvasToCurve of that point gives the key's time and value back |
| CurveMath.CanvasToCurve | Assets/PostProcessing/Editor/Utils/CurveEditor.cs:590-599 | because Lerp clamps, every canvas point maps inside the bounds (on each axis of non-negative extent) |
| CurveMath.CurveCanvasRoundTrip | Assets/PostProcessing/Editor/Utils/CurveEditor.cs:581-599 | for bounds of positive size and a curve area of non-zero size, CanvasToCurve(CurveToCanvas(p)) == p for every p inside the bounds |
| CurveMath.CanvasCurveRoundTrip | Assets/PostProcessing/Editor/Utils/CurveEditor.cs:581-599 | the converse: CurveToCanvas(CanvasToCurve(q)) == q for every q inside a curve area of positive size |
| CurveMath.ProjectTangent | Assets/PostProcessing/Editor/Utils/CurveEditor.cs:640-643 | projecting a tangent line onto its own position gives the key's value |
| CurveMath.BezierControls | Assets/PostProcessing/Editor/Utils/CurveEditor.cs:613-625 | four points: the two keys at the ends and inner points at 1/3 and 2/3 of the way in time (0.333333 and 0.666666), ordered for ordered keys; the first inner point is on the start key's out-tangent line and the second on the end key's in-tangent line |
| CurveMath.BezierSegment | Assets/PostProcessing/Editor/Utils/CurveEditor.cs:613-627 | four canvas points, each the canvas image of the matching Bezier control point, so the ends are the canvas positions of the two keys |
| CurveMath.ChordTangentsGiveStraightSegment | Assets/PostProcessing/Editor/Utils/CurveEditor.cs:620-624 | when both handles have the chord's slope, all four control points lie on the chord |
| CurveMath.HardSegment | Assets/PostProcessing/Editor/Utils/CurveEditor.cs:629-638 | three canvas points from one key to the other: first a horizontal run, then a vertical one |
| CurveMath.ClampedTime | Assets/PostProcessing/Editor/Utils/CurveEditor.cs:521-525 | the clamped time is at most next - d when a next key exists; it is at least prev + d when there is no next key or next - prev >= 2d; a time already within both limits is kept |
| CurveMath.ClampedKey | Assets/PostProcessing/Editor/Utils/CurveEditor.cs:517-527 | only the time of the moved key changes; the value and both tangents are passed through |
| CurveMath.MovedCurve | Assets/PostProcessing/Editor/Utils/CurveEditor.cs:517-527 | same length, the clamped key at the index, and every other key untouched |
| CurveMath.MoveKeepsOrder | Assets/PostProcessing/Editor/Utils/CurveEditor.cs:521-527 | given d > 0, strictly increasing times and neighbours more than d apart, the moved curve is still strictly increasing |
| CurveMath.SideX | Assets/PostProcessing/Editor/Utils/CurveEditor.cs:548-552 | the offset's x is forced <= 0 for the In handle and >= 0 for the Out handle; an x already on the right side is kept |
| CurveMath.TangentFromOffset | Assets/PostProcessing/Editor/Utils/CurveEditor.cs:554-559 | the tangent is infinite iff the restricted x is approximately 0, and then it is +infinity iff y < 0; otherwise its slope times x is y |
| CurveMath.TangentEdited | Assets/PostProcessing/Editor/Utils/CurveEditor.cs:539-570 | the key keeps its time and value; the in tangent is replaced iff the target is In or the tangents are linked, and likewise the out tangent for Out |
| CurveMath.LinkTangents | Assets/PostProcessing/Editor/Utils/CurveEditor.cs:400-401 | shift always links; without shift, a broken key or control never links; with neither shift nor control, an unbroken key links |
| CurveMath.LinkedEditIsUnbroken | Assets/PostProcessing/Editor/Utils/CurveEditor.cs:400-401 | with a reflexive Approximately, a linked tangent drag leaves the key unbroken |
| CurveMath.LeadingBefore | Assets/PostProcessing/Editor/Utils/CurveEditor.cs:647-656 | the loop's stopping point: all keys before it are strictly before the time, and the key at it (if any) is not |
| CurveMath.LeadingBeforeUnique | Assets/PostProcessing/Editor/Utils/CurveEditor.cs:647-656 | those two facts determine the stopping point uniquely |
| CurveMath.SortedLeadingBefore | Assets/PostProcessing/Editor/Utils/CurveEditor.cs:647-662 | on a non-empty time-ordered curve the search finds no predecessor iff time <= keys[0].time, and runs off the end iff time > the last key's time |
| CurveMath.SampleWindow | Assets/PostProcessing/Editor/Utils/CurveEditor.cs:664-666 | keys[prev].time <= tp < time <= tn <= keys[next].time |
| CurveMath.TangentAt | Assets/PostProcessing/Editor/Utils/CurveEditor.cs:645-675 | zero when no key lies before the time or none at or after it; between two keys, a finite result is the secant slope over the sample window (slope times window width is the rise of Evaluate), +infinity only for a positive rise and -infinity only for a non-positive one |
| CurveMath.TangentOutsideKeysIsZero | Assets/PostProcessing/Editor/Utils/CurveEditor.cs:658-662 | the estimated tangent is 0 for an empty curve and for times outside a time-ordered curve's keys |
| CurveEditing.RectOffset.Remove | Assets/PostProcessing/Editor/Utils/CurveEditor.cs:245 | each edge of the curve area moves inwards by its padding |
| CurveEditing.CreatedKey | Assets/PostProcessing/Editor/Utils/CurveEditor.cs:486-498 | the new key sits at the clicked time with both tangents equal to the estimated slope; its value is the click's height, or, on the curve, the zero-key constant for an empty curve and the curve's value otherwise |
| CurveEditing.WithMenuKey | Assets/PostProcessing/Editor/Utils/CurveEditor.cs:463-477 | a curve that is not both editable and visible keeps its keys; one that is gets the engine's AddKey of the CreatedKey for the click |
| CurveEditing.AddEach | Assets/PostProcessing/Editor/Utils/CurveEditor.cs:163-185 | adding in turn never changes an existing entry; every new entry is a SerializedProperty holding an AnimationCurve, with the default state; the only failures are ArgumentException (not a curve) and Dictionary.Add's duplicate key |
| CurveEditing.AddEachFresh | Assets/PostProcessing/Editor/Utils/CurveEditor.cs:163-185 | adding distinct, unregistered curve properties succeeds; each gets the default state, and the earlier entries are kept |
| CurveEditing.AnimationCurve.MoveKey | Assets/PostProcessing/Editor/Utils/CurveEditor.cs:527 | MoveKey replaces the key at the index |
| CurveEditing.AnimationCurve.AddKey | Assets/PostProcessing/Editor/Utils/CurveEditor.cs:507 | the keys become the engine's AddKey of the old keys and the new key |
| CurveEditing.AnimationCurve.RemoveKey | Assets/PostProcessing/Editor/Utils/CurveEditor.cs:513 | the keys become the engine's RemoveKey of the old keys at the index |
| CurveEditing.CurveEditor.constructor | Assets/PostProcessing/Editor/Utils/CurveEditor.cs:36-50 | a new editor has the default settings (bounds 0,0,1,1, padding 10, yellow selection, picking distance 6, clamping distance 0.0001), no curves, no selection (index -1) and a clean dirty flag |
| CurveEditing.CurveEditor.WithSettings | Assets/PostProcessing/Editor/Utils/CurveEditor.cs:153-157 | a new editor with the given settings and an empty registry |
| CurveEditing.CurveEditor.Add | Assets/PostProcessing/Editor/Utils/CurveEditor.cs:174-185 | a non-curve property fails with ArgumentException; an already registered curve fails from Dictionary.Add; both leave the registry unchanged; otherwise the curve is mapped to the given state |
| CurveEditing.CurveEditor.AddDefault | Assets/PostProcessing/Editor/Utils/CurveEditor.cs:169-172 | Add with CurveState.defaultState (visible, editable, 2 points, zero constant 0, white, width 2, handle width 2, non-editable handles shown) |
| CurveEditing.CurveEditor.AddAll | Assets/PostProcessing/Editor/Utils/CurveEditor.cs:163-167 | the registry and outcome are those of adding each property with the default state in order, stopping at the first exception |
| CurveEditing.CurveEditor.Remove | Assets/PostProcessing/Editor/Utils/CurveEditor.cs:187-190 | only that entry is removed |
| CurveEditing.CurveEditor.RemoveAll | Assets/PostProcessing/Editor/Utils/CurveEditor.cs:192-195 | the registry is empty |
| CurveEditing.CurveEditor.GetCurveState | Assets/PostProcessing/Editor/Utils/CurveEditor.cs:197-204 | it succeeds iff the curve is registered, and then returns its state; otherwise it fails with KeyNotFoundException |
| CurveEditing.CurveEditor.SetCurveState | Assets/PostProcessing/Editor/Utils/CurveEditor.cs:206-212 | an unregistered curve fails with KeyNotFoundException and leaves the registry unchanged; otherwise only that entry changes, to the new state |
| CurveEditing.CurveEditor.Invalidate | Assets/PostProcessing/Editor/Utils/CurveEditor.cs:441-444 | the dirty flag is set |
| CurveEditing.CurveEditor.SelectKeyframe | Assets/PostProcessing/Editor/Utils/CurveEditor.cs:450-455 | the selection becomes (curve, index) and the dirty flag is set |
| CurveEditing.CurveEditor.GetSelection | Assets/PostProcessing/Editor/Utils/CurveEditor.cs:214-228 | an index past the selected curve's end is reset to -1; afterwards the index is -1 or in range; the keyframe is present iff the index is in range, and then it is keys[index]; a selected index with no curve gives NullReferenceException |
| CurveEditing.CurveEditor.OnCurveGUI | Assets/PostProcessing/Editor/Utils/CurveEditor.cs:261-265 | an invisible curve is skipped; for the selected visible curve, an index at or past its key count is reset to -1 (lines 360-364) |
| CurveEditing.CurveEditor.OnGUI | Assets/PostProcessing/Editor/Utils/CurveEditor.cs:237-255 | a repaint clears the dirty flag and the flag is returned; the curve area is the rectangle less the padding; every registered curve is visited, so an out-of-range selection on a visible curve is repaired |
| CurveEditing.CurveEditor.SaveCurve | Assets/PostProcessing/Editor/Utils/CurveEditor.cs:436-439 | the property now holds the curve's keys |
| CurveEditing.CurveEditor.AddKeyframe | Assets/PostProcessing/Editor/Utils/CurveEditor.cs:505-509 | the key is added by the engine and the dirty flag is set |
| CurveEditing.CurveEditor.RemoveKeyframe | Assets/PostProcessing/Editor/Utils/CurveEditor.cs:511-515 | the key is removed by the engine and the dirty flag is set |
| CurveEditing.CurveEditor.EditDeleteKeyframe | Assets/PostProcessing/Editor/Utils/CurveEditor.cs:500-503 | the same as RemoveKeyframe |
| CurveEditing.CurveEditor.EvaluateTangent | Assets/PostProcessing/Editor/Utils/CurveEditor.cs:645-675 | the search loop and the difference quotient compute TangentAt, the function about which LeadingBefore, SampleWindow and TangentOutsideKeysIsZero are proved |
| CurveEditing.CurveEditor.EditCreateKeyframe | Assets/PostProcessing/Editor/Utils/CurveEditor.cs:486-498 | the curve gains the CreatedKey at the position, and the dirty flag is set |
| CurveEditing.CurveEditor.AddKeyToCurve | Assets/PostProcessing/Editor/Utils/CurveEditor.cs:463-477 | one registered curve gets the menu key iff it is editable and visible; no other property changes |
| CurveEditing.CurveEditor.ContextMenuAddKey | Assets/PostProcessing/Editor/Utils/CurveEditor.cs:457-484 | every registered, editable and visible curve gains the created key; every other property is unchanged; the dirty flag is set |
| CurveEditing.CurveEditor.SetKeyframeOnCurve | Assets/PostProcessing/Editor/Utils/CurveEditor.cs:517-529 | the curve becomes MovedCurve (clamped time, other keys untouched), the dirty flag is set, and the order of a strictly increasing curve is kept |
| CurveEditing.CurveEditor.SetKeyframe | Assets/PostProcessing/Editor/Utils/CurveEditor.cs:230-235 | a non-curve property fails with NullReferenceException; an index out of range fails with IndexOutOfRange and nothing changes; otherwise the moved curve is written back and the dirty flag is set |
| CurveEditing.CurveEditor.DraggedKey | Assets/PostProcessing/Editor/Utils/CurveEditor.cs:533-536 | the dragged key keeps its own tangents, and its time and value lie within the bounds |
| CurveEditing.CurveEditor.EditMoveKeyframe | Assets/PostProcessing/Editor/Utils/CurveEditor.cs:531-537 | the key moves to the pointer's curve position, time-clamped, with its tangents kept |
| CurveEditing.CurveEditor.TangentOffset | Assets/PostProcessing/Editor/Utils/CurveEditor.cs:541-546 | the pointer's curve position relative to the key; since CanvasToCurve clamps, key + offset lies inside the bounds on each axis of non-negative extent |
| CurveEditing.CurveEditor.EditMoveTangent | Assets/PostProcessing/Editor/Utils/CurveEditor.cs:539-570 | the key is replaced by TangentEdited for the pointer's offset (time-clamped through SetKeyframe), and the dirty flag is set |
| Building.TruncQuot | Assets/Script/BuildMode.cs:123-125 | the quotient truncated toward zero: within one below a non-negative quotient and within one above a negative quotient |
| Building.TruncRem | Assets/Script/BuildMode.cs:123-125 | C#'s float % (a - b trunc(a / b)): for a positive divisor it is in [0, b) for a non-negative dividend and in (-b, 0] for a negative one |
| Building.SnapAxis | Assets/Script/BuildMode.cs:123-135 | for a positive gridSize, one snapped coordinate (before the mode offsets) is an integer multiple of gridSize within gridSize / 2 of the input |
| Building.SnapPoint | Assets/Script/BuildMode.cs:123-135 | each of x, y and z of the snapped point is a multiple of a positive gridSize within gridSize / 2 of that coordinate of the input |
| Building.SnapIsNearest | Assets/Script/BuildMode.cs:115-135 | no multiple of gridSize is closer to the input than the snapped coordinate: it is the nearest cell |
| Building.SnapToNearestGridcell | Assets/Script/BuildMode.cs:121-170 | rotation is (0, yaw, 0), with z = -45 for a ramp; a wall adds half a cell to y, and to z when sideways (|yaw| 90 or 270) or else to x; a ramp adds half a cell to y; a ground piece adds nothing |
| Building.Toggle | Assets/Script/BuildMode.cs:79-113 | Off or the present mode ends with mode Off and no preview; another build type becomes the mode, with the transparent preview of its type at the last position |
| Building.ToggleTwice | Assets/Script/BuildMode.cs:103-111 | the same type chosen a second time switches building off unless it was already on; a third time is the same as once |
| Building.Placed | Assets/Script/BuildMode.cs:176-213 | nothing is placed when canBuild is false or the mode is Off; otherwise exactly one solid prefab of the mode is placed at the position and rotation |
| Building.BuildMode.InitBuilding | Assets/Script/BuildMode.cs:79-113 | the mode and preview become Toggle of the old ones |
| Building.BuildMode.ComputeCanBuild | Assets/Script/BuildMode.cs:51-60 | canBuild holds iff the overlap query returned a collider and none sits exactly at the target |
| Building.BuildMode.BuildComponent | Assets/Script/BuildMode.cs:176-198 | the placed pieces grow by Placed for the present mode, position and preview rotation |
| Building.BuildMode.Update | Assets/Script/BuildMode.cs:42-77 | while building, the position and preview follow the snapped cell gridSize + 2 ahead of the camera and canBuild is recomputed; with building off they stay; a mouse release places Placed; the mode never changes |
| Destroying.Wrap32 | Assets/Script/Destroyable.cs:11 | C# int subtraction: the identity in range, and always congruent modulo 2^32 |
| Destroying.LifeAfter | Assets/Script/Destroyable.cs:9-11 | after n hits of dmg the life is life - n * dmg modulo 2^32, however often it wraps |
| Destroying.LifeAfterIsLinear | Assets/Script/Destroyable.cs:9-11 | while nothing wraps, n hits of dmg take off exactly n * dmg |
| Destroying.TenthHitDestroys | Assets/Script/Destroyable.cs:7-13 | from life 100 with the weapon's 10 damage per hit (WeaponController.cs line 12), the first nine hits leave life > 0 and the tenth leaves it <= 0 |
| Destroying.DiesIff | Assets/Script/Destroyable.cs:12-15 | destruction is requested within n hits iff one of them leaves life <= 0 |
| Destroying.Destroyable.constructor | Assets/Script/Destroyable.cs:7 | life starts at 100 and no destruction is requested |
| Destroying.Destroyable.GetDMG | Assets/Script/Destroyable.cs:9-18 | life drops by exactly dmg, unclamped and with int wrap-around; the result is true iff life <= 0, and destruction is then requested |
| Weapon.NextCooldown | Assets/Script/WeaponController.cs:70 | a zero rate (1 / 0 is infinite) gives a cooldown that never passes; a positive rate gives one strictly after now |
| Weapon.ShotTimes | Assets/Script/WeaponController.cs:42-71 | the gate fires at most once per frame, and never in a run of frames where the button is not held |
| Weapon.ShotsAfterCooldown | Assets/Script/WeaponController.cs:42-71 | no shot is fired before the cooldown has passed, and none is ever fired once it is infinite |
| Weapon.ShotsSpaced | Assets/Script/WeaponController.cs:42-71 | with a positive rate, successive shots are more than 1 / BulletsPerSecound apart |
| Weapon.WeaponController.constructor | Assets/Script/WeaponController.cs:11-12 | the cooldown starts at 0 and WeaponDMG is 10 |
| Weapon.WeaponController.Update | Assets/Script/WeaponController.cs:30-80 | the x rotation follows the camera while zooming and is 0 otherwise; a closed gate changes nothing; an open gate clears isOnFire unless the button is held; a held button sets isOnFire and the new cooldown, and deals exactly WeaponDMG to a destroyable target and nothing otherwise |
| Exploding.Dispatch | Assets/Script/Bomb.cs:26-43 | pushed iff in the gravity mask with a Rigidbody; damaged iff not in the gravity mask but in the build mask with a Destroyable (the gravity mask wins); in neither mask, untouched |
| Exploding.PushedIndices | Assets/Script/Bomb.cs:26-35 | at most one pushed index per collider, each the index of a collider the query returned |
| Exploding.PushedIndicesExact | Assets/Script/Bomb.cs:26-35 | every collider index is pushed at most once, in increasing order, and exactly when its dispatch says so |
| Exploding.DamageCount | Assets/Script/Bomb.cs:36-42 | a destroyable takes at most one hit per collider |
| Exploding.DamageCountZero | Assets/Script/Bomb.cs:36-42 | a destroyable none of whose colliders is damaged takes no hit |
| Exploding.DamageCountSingle | Assets/Script/Bomb.cs:36-42 | a destroyable behind exactly one collider takes one hit if that collider is damaged, and none otherwise |
| Exploding.Bomb.Visit | Assets/Script/Bomb.cs:26-43 | one collider: pushed as Dispatch says; its destroyable takes BombDMG iff it is dispatched as damaged |
| Exploding.Bomb.Advance | Assets/Script/Bomb.cs:26-43 | one loop turn: the pushed list grows to PushedIndices of one more collider, and every destroyable's life and destruction request become those of one more collider's DamageCount |
| Exploding.Bomb.Explode | Assets/Script/Bomb.cs:23-49 | every collider is visited once, in order: the pushed indices are PushedIndices; every destroyable takes one BombDMG hit per damaging collider, with destruction requested iff one of those hits leaves life <= 0; then the bomb is gone |
| Modes.ToolsFor | Assets/Script/ModeChange.cs:60-84 | exactly one tool is active: Bomb gives the bomb thrower and "Bomb Mode", Weapon the weapon and "Weapon Mode", Build the build tool and "Build Mode" |
| Modes.FrameAfter | Assets/Script/ModeChange.cs:27-58 | once any of the keys fires, exactly one tool is active and the build state is consistent (mode Off iff no preview, and the preview is the transparent prefab of the mode); both are kept when none fires |
| Modes.LastKeyWins | Assets/Script/ModeChange.cs:27-58 | blocks run in the order 1, 2, 3, E, G, so the last key pressed decides the tool; E or G leaves building off; no key changes nothing |
| Modes.SingleBuildKey | Assets/Script/ModeChange.cs:29-45 | key 1, 2 or 3 alone selects Build and toggles Ground, Wall or Ramp |
| Modes.SameBuildKeyTwice | Assets/Script/ModeChange.cs:29-45 | the same build key in two frames ends with building off, unless that type was already on |
| Modes.ModeChange.SwitchMode | Assets/Script/ModeChange.cs:60-89 | the tool flags and display become ToolsFor(mode) |
| Modes.ModeChange.Start | Assets/Script/ModeChange.cs:21-24 | the game starts in Weapon mode with exactly one tool active |
| Modes.ModeChange.BuildBlock | Assets/Script/ModeChange.cs:29-33 | one build-key block: the Build tool, then InitBuilding of the type |
| Modes.ModeChange.LeaveBlock | Assets/Script/ModeChange.cs:47-51 | one E or G block: InitBuilding(Off), then the weapon or bomb tool |
| Modes.ModeChange.Update | Assets/Script/ModeChange.cs:27-58 | the tools and build state become FrameAfter of the old ones for the keys; exactly one active tool is preserved |

## Left out

- Drawing and GUI events of the curve editor are not modelled: clipping, the Handles draw calls, cursor rectangles, `Event.current` and colours. `CurveTangentToCanvas` (vector normalisation) is left out with them.
- The edit-mode transitions into Moving and TangentEdit are empty in the source. So `m_EditMode` never leaves None and the drag branches of `OnCurveGUI` never run. `EditMoveKeyframe` and `EditMoveTangent` are modelled as operations of their own, not wired into `OnGUI`.
- `CurveEditing.CurveEditor.OnCurveGUI`: the write-back at its end stores the curve it just read, so it is not modelled.
- Serialization (`SerializedObject.Update`, `ApplyModifiedProperties`) is left out. A property's `animationCurveValue` is the `properties` map, and a property outside the map is not an AnimationCurve (null).
- `AnimationCurve.Evaluate`, `AddKey`, `RemoveKey` and `Mathf.Approximately` are parameters, because they are the engine's. Where AddKey and RemoveKey put or shift keys is therefore not modelled. The `evaluate` parameter sees only the keys, not the curve's `preWrapMode` and `postWrapMode`, so the wrap modes Unity's Evaluate applies outside the key range are not modelled. This affects the create-on-curve value at CurveEditor.cs line 494 (`CreatedKey`, `ContextMenuAddKey`) and the samples of `EvaluateTangent`.
- Null `SerializedProperty` arguments are not modelled. A `Property` is never null, so `Add(null)`'s NullReferenceException (line 177) and the ArgumentNullException of `Remove`, `GetCurveState` and `SetCurveState` with null (lines 189, 200 and 208) do not arise.
- `CurveMath.ApproxZero`: `Mathf.Approximately(x, 0)` is read as `x == 0 || approx(x, 0)`. Unity's function holds of equal arguments, and this keeps the finite slope defined.
- Floats are reals: no rounding, NaN or infinities except tangent infinities and the infinite cooldown of a zero fire rate. Divisions therefore need non-zero divisors. The model requires a non-degenerate bounds rectangle or curve area, a non-zero gridSize, and finite tangents for `BezierSegment`. The source would compute with infinities there.
- `Building.SnapToNearestGridcell`: the yaw `Mathf.Round(y / 90) * 90 - 90` is taken as an input, and its write to the preview's rotation is done by `Update`.
- `Building.BuildMode.Update`: the `position != null` test is always true for a Vector3. The preview's colour tint is left out. The source's `Vector3 ==` at line 58 is approximate (it holds within a distance of about 1e-5); the model uses exact equality.
- Ramp scaling in `BuildMode.Start` is left out (a square root of scales).
- Destroyed Unity objects are not modelled as fake-null objects: `Destroy` is recorded as `destroyRequested` (on a Destroyable) or `exploded` (on the bomb).
- Physics queries (`OverlapBox`, `OverlapSphere`, `Raycast`) are inputs, as is which component a collider carries. The force of `AddExplosionForce` is recorded only as which collider was pushed.
- `Invoke("explode", lifeTime)` timing, the explosion effect, particles, audio, lights and `Debug.Log` are not modelled.
- `Weapon.WeaponController.Update`: the effects driven by the mouse press and by `isOnFire` are not modelled (smoke, sparks, audio, light). The weapon's y and z angles are not modelled either.
- `ThirdPersonCameraMovement.cs`, `ThridPersonController.cs` and `BombThrow.cs` are not part of this model: they are float smoothing of input and a thrown rigid body.
