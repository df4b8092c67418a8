# AR-Drawing session state machine in Dafny

AR-Drawing lets a user place copies of 3D templates into an ARKit scene and then
move, rotate and scale them with touch drags. All of the session logic sits in
one view controller; the options menu is a separate controller that calls back
into it through `OptionsViewControllerDelegate`. This project models the view
controller's session state and every transition that changes it, including the
delegate callbacks. The state is:

- the placed objects (`objectNodes`), in placement order, which is also undo order;
- the plane visuals (`planeNodes`) and the global `arePlanesHidden` flag, whose
  observer copies the flag onto every visual;
- the placement mode (freeform, plane, image, transform) and the transform mode
  (move, rotate, scale);
- the selected template (`selectedNode`);
- the highlighted target (`hittedNode`), whose observer writes opacity 1 on the
  old target and 0.8 on the new one.

The state is one immutable record, `Session.State`. Each handler is a pure function
from the old record to the new one. ARKit and SceneKit queries become inputs:

- the camera transform of the current frame, which may be absent;
- the raycast results, which may be absent when no query can be built;
- the default hit-test results;
- the all-nodes hit-test results.

A hit-test result is an abstract record: a node id, an optional name, an optional
parent and a world transform. A raycast result is a separate, smaller record: only
its world transform and whether it lies on a plane anchor.

Poses are symbolic terms (`Geometry.Pose`). A term records which matrix product
the app forms, in which order, and with which damped delta. The damping
constants are the ones in the code: 200 for move, 50 for rotate, 50 for scale.

Files:

- `optional.dfy`: the `Option` type.
- `geometry.dfy`: symbolic poses and the move, rotate, scale and front-placement terms.
- `hit_test.dfy`: hit records, the helper-geometry filter and the first target.
- `session.dfy`: the state record and all transitions.
- `machine.dfy`: the handlers as events, the session invariant, and the proof
  that every reachable state keeps it.
- `laws.dfy`: lemmas that relate several calls. They cover undo against placement,
  toggling twice, tapping twice or three times, and idempotence.

The model follows the code in these places, where a reader might expect otherwise:

- `touchesBegan` returns early without a selected template in every mode, transform
  mode included (ViewController.swift line 137). So hit targeting needs a template too.
- `scaleNode` applies `1 + dy/50` with no check that the factor is positive (line 315).
  `Laws.ScaleFactorIsUnchecked` shows that every factor is applied, zero and negative ones included.
- In plane mode only the first raycast result is considered. A first result off a
  plane anchor rejects the touch, even if a later result lies on a plane anchor
  (line 218).
- A drag in freeform mode rotates the last object (line 166) and a drag in plane
  mode moves it (line 173). In freeform mode the rotation has no frame guard.
- Failed placements are not error values: the handler returns and the state is unchanged.
- `reloadConfiguration` always sets `arePlanesHidden` to true.

## Model

| member | source | states |
|---|---|---|
| Session.SetPlanesHidden | ARKit-Drawing/ViewController.swift:11-15 | assigning the flag leaves every registered visual showing the new value, keeps the visuals' anchors and count, and changes nothing else |
| Session.HideAll | ARKit-Drawing/ViewController.swift:13 | the observer's loop gives every visual the flag and keeps its anchor and position in the list |
| Session.SetHighlighted | ARKit-Drawing/ViewController.swift:36-41 | assigning the target restores the old target to opacity 1 and puts 0.8 on the new one. All other written opacities are kept. If exactly the old target was dimmed, exactly the new one is dimmed afterwards |
| Session.ChangeObjectMode | ARKit-Drawing/ViewController.swift:64-84 | segments 0-3 select freeform, plane, image, transform, and other segments keep the mode. The highlight is always cleared and the old target goes back to opacity 1. Planes are hidden exactly when the mode is not plane, and the visuals keep their count and anchors. Every other written opacity is kept. Objects, template and transform mode are unchanged |
| Session.ChangeTransformMode | ARKit-Drawing/ViewController.swift:86-100 | segments 0-2 select move, rotate, scale; any other segment leaves the state unchanged; nothing but the transform mode changes |
| Session.SelectTemplate | ARKit-Drawing/ViewController.swift:331-335 | the handed-over template becomes the selected one and nothing else changes |
| Session.Reload | ARKit-Drawing/ViewController.swift:111-130 | objects and plane visuals are emptied and the flag becomes true. The highlight, selected template, opacities, modes and id counter are kept |
| Session.TogglePlaneVisualization | ARKit-Drawing/ViewController.swift:337-342 | in plane mode the flag flips and every visual follows it, with anchors kept. In any other mode the state is unchanged |
| Session.Undo | ARKit-Drawing/ViewController.swift:344-351 | on a non-empty list exactly the last object is removed and the prefix is kept. On an empty list the state is unchanged, and nothing but the list ever changes |
| Session.AddPlaneVisual | ARKit-Drawing/ViewController.swift:389-400 | a new plane anchor appends one visual whose hidden flag is the current global flag, so synced visuals stay synced |
| Session.AnchorAdded | ARKit-Drawing/ViewController.swift:409-418 | plane anchors append a visual carrying the current flag; image and other anchors leave the state unchanged |
| Session.AddToSceneRoot | ARKit-Drawing/ViewController.swift:195-203 | a clone with a fresh id, the template and the pose is appended as the new last object; only the list and the id counter change |
| Session.AddNodeToPlane | ARKit-Drawing/ViewController.swift:205-224 | a clone is placed, at the first raycast result's world transform verbatim, exactly when a query exists, returned a result, and that result lies on a plane anchor. Otherwise the state is unchanged |
| Session.AddNodeToImage | ARKit-Drawing/ViewController.swift:226-232 | a clone is placed, pitched up a quarter turn from the hit's transform, exactly when the front-most hit is named "image". Otherwise the state is unchanged |
| Session.AddNodeInFront | ARKit-Drawing/ViewController.swift:234-250 | a clone is placed in front of the camera exactly when a current frame exists; otherwise the state is unchanged |
| Session.FindNode | ARKit-Drawing/ViewController.swift:252-266 | if every hit is "floor" or "image" nothing changes. Otherwise the first other hit resolves to itself when it is a placed object, else to its parent. The highlight is cleared if it equals that owner and moves to the owner if not. The opacities change exactly as the highlight observer does: old target back to 1, new target 0.8, others untouched |
| Session.TouchesBegan | ARKit-Drawing/ViewController.swift:134-151 | nothing changes without a touch or a selected template. At most one fresh clone of the selected template is appended, and never in transform mode. It is appended exactly when the mode's guard accepts, at the pose that mode prescribes, and the id counter advances exactly then. A rejected creation touch leaves the state unchanged. Transform mode runs hit targeting, and planes, flag, template and modes never change |
| Session.TouchesMoved | ARKit-Drawing/ViewController.swift:154-191 | object ids, templates and order never change, and only the target's pose can change. It is a no-op without a touch, in image mode, in freeform or plane mode with no objects, and in transform mode with no target. Otherwise the target gets the mode's gesture, subject to each gesture's frame guard |
| HitTest.WithoutHelpers | ARKit-Drawing/ViewController.swift:255 | the filter keeps exactly the hits not named "floor" or "image", and it is empty exactly when all hits are helpers |
| HitTest.FirstRemainingIsFirstNonHelper | ARKit-Drawing/ViewController.swift:255 | the first hit that survives the filter is the first non-helper hit, with only helper hits before it |
| HitTest.Owner | ARKit-Drawing/ViewController.swift:257 | a hit resolves to its own node when that node is a placed object, and otherwise to its parent, which may be absent |
| Session.MoveNode | ARKit-Drawing/ViewController.swift:270-281 | without a current frame nothing changes. With one, the node's pose is right-multiplied by the damped translation and every other object is untouched |
| Session.RotateNode | ARKit-Drawing/ViewController.swift:284-310 | with no frame guard, the node's pose is right-multiplied by the x, y, z rotations in that order, and every other object is untouched |
| Session.ScaleNode | ARKit-Drawing/ViewController.swift:312-324 | without a current frame nothing changes. With one, the node's pose is right-multiplied by the uniform factor 1 + dy/50, whatever its sign, and every other object is untouched |
| HitTest.FirstTarget | ARKit-Drawing/ViewController.swift:255 | there is no target exactly when every hit is helper geometry. Otherwise the target is a non-helper hit preceded only by helper hits |
| Machine.InitialValid | ARKit-Drawing/ViewController.swift:11-41 | the controller as constructed satisfies the session invariant |
| Machine.PlacementKeepsIdsFresh | ARKit-Drawing/ViewController.swift:195-203 | appending a fresh clone or removing the last object keeps placed objects' ids distinct and below the counter |
| Machine.StepPreservesValid | ARKit-Drawing/ViewController.swift:11-41 | every handler preserves the invariant: visuals mirror the flag, exactly the highlighted node is dimmed, and clone ids are distinct |
| Machine.RunPreservesValid | ARKit-Drawing/ViewController.swift:11-41 | any serial sequence of handler calls preserves the invariant |
| Machine.ReachableHighlightIsUnique | ARKit-Drawing/ViewController.swift:36-41 | in every state a serial run of handlers reaches, at most one node carries opacity 0.8, and it is the highlighted node |
| Machine.ReachablePlanesSynced | ARKit-Drawing/ViewController.swift:11-15 | in every state a serial run of handlers reaches, each registered plane visual's hidden flag equals the global flag |
| Laws.UndoAfterPlacement | ARKit-Drawing/ViewController.swift:344-351 | undo right after a placement restores the state, except the id counter |
| Laws.PlaceAll | ARKit-Drawing/ViewController.swift:195-203 | placing a series of clones appends them in order, with consecutive fresh ids, after the untouched existing objects |
| Laws.UndoTimesTruncates | ARKit-Drawing/ViewController.swift:344-351 | n undos keep the first max(0, len - n) objects and change nothing else |
| Laws.UndoAllEmpties | ARKit-Drawing/ViewController.swift:344-351 | as many undos as there are objects leave the list empty |
| Laws.UndoReversesPlacements | ARKit-Drawing/ViewController.swift:344-351 | undoing n times after n placements restores the object list exactly (strict LIFO) |
| Laws.ToggleTwiceRestores | ARKit-Drawing/ViewController.swift:337-342 | with synced visuals, toggling twice restores the whole state |
| Laws.ChangeObjectModeIdempotent | ARKit-Drawing/ViewController.swift:64-84 | selecting the same segment twice has the effect of selecting it once |
| Laws.ReloadIdempotent | ARKit-Drawing/ViewController.swift:111-121 | reloading twice has the effect of reloading once |
| Laws.FindNodeTwice | ARKit-Drawing/ViewController.swift:252-266 | two taps on the same hits leave the state unchanged when there is no target. Otherwise the highlight is restored when it was empty or on the owner, and cleared when it was elsewhere |
| Laws.FindNodeToggles | ARKit-Drawing/ViewController.swift:259-264 | from no highlight, a second tap clears the highlight and a third restores the first tap's highlight |
| Laws.ScaleFactorIsUnchecked | ARKit-Drawing/ViewController.swift:312-324 | for every drag, a scale gesture with a frame multiplies the target's pose by 1 + dy/50. Drags of 50 points or more upwards give a factor of zero or below, and it is still applied |

## Left out

- Concurrency: the anchor callback `renderer(_:didAdd:for:)` runs on SceneKit's rendering
  thread and the other handlers on the main thread, and nothing synchronises `planeNodes` or
  `arePlanesHidden`. The model delivers all events serially, one at a time, so `PlanesSynced`
  and the Machine lemmas hold only for serial delivery. An interleaving that reads the flag,
  lets the main thread assign it, and then appends the visual is not modelled. Neither is
  `removeAll` in `reloadConfiguration` racing with the append.
- ARKit session lifecycle: `session.run` and `pause`, the configuration, detection
  images, and the `reset` run option of `reloadConfiguration`. The option only
  affects the ARKit session. The query results are inputs to the handlers.
- Touch locations: a location is only passed to the raycast and hit-test queries.
  So the model takes the query results and the location delta directly.
- SceneKit rendering: `createFloor`, the plane sizing in `updateFloor` (the
  `didUpdate` callback), the image cover node, lighting, node cloning and
  `removeFromParentNode`. None of these changes the modelled state.
- UIKit wiring: `selectionTransformMenu` visibility, `dismiss`, `prepare(for:sender:)`,
  `viewDidLoad`, `viewWillAppear` and `viewWillDisappear`. `viewWillAppear` only
  calls the modelled `reloadConfiguration`.
- Matrix arithmetic: poses are symbolic terms, so float rounding and the sin/cos values
  of `rotateNode` are not modelled. Deltas are reals, not `CGFloat`.
- Session.AddNodeToPlane: does not model that the code first writes the pose onto the
  template node. Every placement overwrites that pose before cloning, so only the
  clone's pose is observable.
- Session.AddNodeToImage: does not model that the code first writes the pose onto the
  template node, for the same reason.
- Session.AddNodeInFront: does not model that the code first writes the pose onto the
  template node (line 248), for the same reason.
- Session.TouchesMoved: when the highlighted node is not a placed object, its pose is
  not part of the state, so that change is not modelled. This happens for the parent
  of a non-object hit, or for an object already removed by undo or reload.
- Session.SetHighlighted: records only the opacities the controller writes. Opacities
  a node had before, such as 0.25 on plane visuals, are not modelled.
- Node identity: clones get ids from a counter. Nothing stops hit records from naming
  an id the counter will issue later.
