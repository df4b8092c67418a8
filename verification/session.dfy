/** The session state of the drawing view controller and every transition
    that changes it.

    The state is one immutable record. Each handler of the view controller
    (the mode switches, the menu actions, the touch handlers, the anchor
    callback) is a pure function from the old record and the data the
    handler receives or queries to the new record. The property observers of
    `arePlanesHidden` and `hittedNode` are the explicit setters
    `SetPlanesHidden` and `SetHighlighted`, which every handler goes through. */
module Session {
  import opened Optional
  import opened Geometry
  import opened HitTest

  /** The identity of a template the options menu can hand over. */
  type TemplateId = nat

  /** The identity of an ARKit anchor. */
  type AnchorId = nat

  datatype PlacementMode = Freeform | Plane | Image | Transform

  datatype TransformMode = Move | Rotate | Scale

  /** A clone of a template added to the scene root. */
  datatype PlacedObject = PlacedObject(id: NodeId, template: TemplateId, pose: Pose)

  /** The visual ("floor" node) shown for one detected horizontal plane. */
  datatype PlaneVisual = PlaneVisual(anchor: AnchorId, hidden: bool)

  /** The anchors ARKit reports when it adds a node for them. */
  datatype Anchor = PlaneAnchor(id: AnchorId) | ImageAnchor(id: AnchorId) | OtherAnchor

  /** What the touch-began handler learns from ARKit and SceneKit at the
      touched point: the camera transform of the current frame (absent when
      there is no frame), the raycast results (absent when no raycast query
      can be built), the default hit-test results, and the hit-test results
      with the search mode set to all. */
  datatype TouchQueries = TouchQueries(
    camera: Option<Pose>,
    raycast: Option<seq<RaycastHit>>,
    closestHits: seq<NodeHit>,
    allHits: seq<NodeHit>)

  datatype State = State(
    /** `objectNodes`: placed objects in placement order; the last one is undone first. */
    objects: seq<PlacedObject>,
    /** `planeNodes`: the registered plane visuals. */
    planes: seq<PlaneVisual>,
    /** `arePlanesHidden`. */
    planesHidden: bool,
    objectMode: PlacementMode,
    transformMode: TransformMode,
    /** `selectedNode`: the template the next placement clones. */
    selected: Option<TemplateId>,
    /** `hittedNode`: the node transform mode manipulates. */
    highlighted: Option<NodeId>,
    /** The opacities the controller has written, by node. */
    opacity: map<NodeId, real>,
    /** The identity the next clone receives. */
    nextId: NodeId)

  /** Opacity of a node that is not, or no longer, highlighted. */
  const RestingOpacity: real := 1.0

  /** Opacity of the highlighted node. */
  const HighlightOpacity: real := 0.8

  /** The controller as constructed, before any handler ran. */
  function Initial(): State
  {
    State([], [], true, Freeform, Move, None, None, map[], 0)
  }

  function Ids(objects: seq<PlacedObject>): (r: seq<NodeId>)
    ensures |r| == |objects|
    ensures forall i :: 0 <= i < |objects| ==> r[i] == objects[i].id
    ensures forall id :: id in r <==> exists i :: 0 <= i < |objects| && objects[i].id == id
  {
    seq(|objects|, i requires 0 <= i < |objects| => objects[i].id)
  }

  // ---------------------------------------------------------------------
  // The two property observers

  /** Every registered plane visual shows the global hidden flag. */
  predicate PlanesSynced(s: State)
  {
    forall i :: 0 <= i < |s.planes| ==> s.planes[i].hidden == s.planesHidden
  }

  /** The `forEach` of the `arePlanesHidden` observer. */
  function HideAll(planes: seq<PlaneVisual>, hidden: bool): (r: seq<PlaneVisual>)
    ensures |r| == |planes|
    ensures forall i :: 0 <= i < |r| ==> r[i].anchor == planes[i].anchor && r[i].hidden == hidden
  {
    if planes == [] then []
    else [planes[0].(hidden := hidden)] + HideAll(planes[1..], hidden)
  }

  /** Assigning `arePlanesHidden`: the flag and, through the observer, every
      registered visual take the new value; nothing else changes. */
  function SetPlanesHidden(s: State, hidden: bool): (r: State)
    ensures r.planesHidden == hidden
    ensures PlanesSynced(r)
    ensures |r.planes| == |s.planes|
    ensures forall i :: 0 <= i < |s.planes| ==> r.planes[i].anchor == s.planes[i].anchor
    ensures r == s.(planesHidden := hidden, planes := r.planes)
  {
    s.(planesHidden := hidden, planes := HideAll(s.planes, hidden))
  }

  /** The nodes the controller has left at the highlight opacity. */
  function DimmedNodes(s: State): set<NodeId>
  {
    set n | n in s.opacity && s.opacity[n] == HighlightOpacity
  }

  /** The highlight shown on screen agrees with `hittedNode`: the highlighted
      node, and only it, carries the highlight opacity. */
  predicate HighlightConsistent(s: State)
  {
    && (forall n :: n in s.opacity && s.opacity[n] == HighlightOpacity ==> s.highlighted == Some(n))
    && (s.highlighted.Some? ==> s.highlighted.value in s.opacity && s.opacity[s.highlighted.value] == HighlightOpacity)
  }

  /** Assigning `hittedNode`: the observer restores the old target to full
      opacity, then dims the new one. */
  function SetHighlighted(s: State, h: Option<NodeId>): (r: State)
    ensures r.highlighted == h
    ensures h.Some? ==> h.value in r.opacity && r.opacity[h.value] == HighlightOpacity
    ensures s.highlighted.Some? && s.highlighted != h ==>
              s.highlighted.value in r.opacity && r.opacity[s.highlighted.value] == RestingOpacity
    ensures forall n :: n in s.opacity && Some(n) != s.highlighted && Some(n) != h ==>
              n in r.opacity && r.opacity[n] == s.opacity[n]
    ensures forall n :: n in r.opacity ==> n in s.opacity || Some(n) == s.highlighted || Some(n) == h
    ensures HighlightConsistent(s) ==> HighlightConsistent(r)
    ensures r == s.(highlighted := h, opacity := r.opacity)
  {
    var restored := match s.highlighted
      case None => s.opacity
      case Some(previous) => s.opacity[previous := RestingOpacity];
    var dimmed := match h
      case None => restored
      case Some(n) => restored[n := HighlightOpacity];
    s.(highlighted := h, opacity := dimmed)
  }

  // ---------------------------------------------------------------------
  // Mode changes and menu actions

  /** The placement mode of each segment of the mode control. */
  function PlacementModeOf(index: int): Option<PlacementMode>
  {
    if index == 0 then Some(Freeform)
    else if index == 1 then Some(Plane)
    else if index == 2 then Some(Image)
    else if index == 3 then Some(Transform)
    else None
  }

  /** `changeObjectMode`: an unknown segment keeps the mode; in every case the
      highlight is dropped and the plane visuals are shown exactly in plane mode. */
  function ChangeObjectMode(s: State, index: int): (r: State)
    ensures 0 <= index <= 3 ==> r.objectMode == [Freeform, Plane, Image, Transform][index]
    ensures !(0 <= index <= 3) ==> r.objectMode == s.objectMode
    ensures r.highlighted == None
    ensures s.highlighted.Some? ==>
              s.highlighted.value in r.opacity && r.opacity[s.highlighted.value] == RestingOpacity
    ensures r.planesHidden == (r.objectMode != Plane)
    ensures PlanesSynced(r)
    ensures |r.planes| == |s.planes|
    ensures forall i :: 0 <= i < |s.planes| ==> r.planes[i].anchor == s.planes[i].anchor
    ensures forall n :: n in s.opacity && Some(n) != s.highlighted ==> n in r.opacity && r.opacity[n] == s.opacity[n]
    ensures forall n :: n in r.opacity ==> n in s.opacity || Some(n) == s.highlighted
    ensures r.objects == s.objects && r.selected == s.selected && r.transformMode == s.transformMode
    ensures r.nextId == s.nextId
    ensures HighlightConsistent(s) ==> DimmedNodes(r) == {}
  {
    var mode := match PlacementModeOf(index) case None => s.objectMode case Some(m) => m;
    var cleared := SetHighlighted(s.(objectMode := mode), None);
    SetPlanesHidden(cleared, mode != Plane)
  }

  /** The transform mode of each segment of the transform control. */
  function TransformModeOf(index: int): Option<TransformMode>
  {
    if index == 0 then Some(Move)
    else if index == 1 then Some(Rotate)
    else if index == 2 then Some(Scale)
    else None
  }

  /** `changeTranformationMode`: only the transform mode changes, and only for a known segment. */
  function ChangeTransformMode(s: State, index: int): (r: State)
    ensures 0 <= index <= 2 ==> r.transformMode == [Move, Rotate, Scale][index]
    ensures !(0 <= index <= 2) ==> r == s
    ensures r == s.(transformMode := r.transformMode)
  {
    match TransformModeOf(index)
    case None => s
    case Some(m) => s.(transformMode := m)
  }

  /** `objectSelected`: the template handed over becomes the one to clone. */
  function SelectTemplate(s: State, template: TemplateId): (r: State)
    ensures r.selected == Some(template)
    ensures r == s.(selected := r.selected)
  {
    s.(selected := Some(template))
  }

  /** The state part of `reloadConfiguration`: every placed object and every
      plane visual is dropped and later planes start hidden. The highlight,
      the selected template and the modes are left as they were. */
  function Reload(s: State): (r: State)
    ensures r.objects == [] && r.planes == []
    ensures r.planesHidden
    ensures PlanesSynced(r)
    ensures r.highlighted == s.highlighted && r.selected == s.selected && r.opacity == s.opacity
    ensures r.objectMode == s.objectMode && r.transformMode == s.transformMode && r.nextId == s.nextId
  {
    SetPlanesHidden(s.(objects := [], planes := []), true)
  }

  /** `togglePlaneVisualization`: flips the hidden flag in plane mode only. */
  function TogglePlaneVisualization(s: State): (r: State)
    ensures s.objectMode == Plane ==> r.planesHidden == !s.planesHidden && PlanesSynced(r)
    ensures s.objectMode == Plane ==> r == s.(planesHidden := r.planesHidden, planes := r.planes)
    ensures s.objectMode == Plane ==>
              |r.planes| == |s.planes| && forall i :: 0 <= i < |s.planes| ==> r.planes[i].anchor == s.planes[i].anchor
    ensures s.objectMode != Plane ==> r == s
  {
    if s.objectMode == Plane then SetPlanesHidden(s, !s.planesHidden) else s
  }

  /** `undoLastObject`: removes the last placed object, if there is one. */
  function Undo(s: State): (r: State)
    ensures s.objects != [] ==> r.objects + [s.objects[|s.objects| - 1]] == s.objects
    ensures s.objects != [] ==> |r.objects| == |s.objects| - 1
    ensures s.objects == [] ==> r == s
    ensures r == s.(objects := r.objects)
  {
    if s.objects == [] then s else s.(objects := s.objects[..|s.objects| - 1])
  }

  // ---------------------------------------------------------------------
  // Anchors

  /** `nodeAdded(_:for: ARPlaneAnchor)`: a new visual, hidden exactly when the
      flag says so, is appended to the registered visuals. */
  function AddPlaneVisual(s: State, anchor: AnchorId): (r: State)
    ensures r.planes == s.planes + [PlaneVisual(anchor, s.planesHidden)]
    ensures PlanesSynced(s) ==> PlanesSynced(r)
    ensures r == s.(planes := r.planes)
  {
    s.(planes := s.planes + [PlaneVisual(anchor, s.planesHidden)])
  }

  /** `renderer(_:didAdd:for:)`: plane anchors get a visual; the cover node of
      an image anchor lives only in the scene graph, and other anchors are
      only logged. */
  function AnchorAdded(s: State, a: Anchor): (r: State)
    ensures a.PlaneAnchor? ==> r.planes == s.planes + [PlaneVisual(a.id, s.planesHidden)]
    ensures !a.PlaneAnchor? ==> r == s
    ensures r == s.(planes := r.planes)
  {
    match a
    case PlaneAnchor(id) => AddPlaneVisual(s, id)
    case ImageAnchor(_) => s
    case OtherAnchor => s
  }

  // ---------------------------------------------------------------------
  // Placement

  /** `addNodeToSceneRoot`: a fresh clone of the template becomes the last
      placed object. */
  function AddToSceneRoot(s: State, template: TemplateId, pose: Pose): (r: State)
    ensures r.objects == s.objects + [PlacedObject(s.nextId, template, pose)]
    ensures r.nextId == s.nextId + 1
    ensures r == s.(objects := r.objects, nextId := r.nextId)
  {
    s.(objects := s.objects + [PlacedObject(s.nextId, template, pose)], nextId := s.nextId + 1)
  }

  /** The guards of `addNodeToPlane`: a query could be built, it returned a
      result, and the first result lies on a plane anchor. */
  predicate PlaneAccepts(raycast: Option<seq<RaycastHit>>)
  {
    raycast.Some? && |raycast.value| > 0 && raycast.value[0].onPlaneAnchor
  }

  /** `addNodeToPlane`: the clone takes the first raycast result's world
      transform verbatim. */
  function AddNodeToPlane(s: State, template: TemplateId, raycast: Option<seq<RaycastHit>>): (r: State)
    ensures PlaneAccepts(raycast) ==> r == AddToSceneRoot(s, template, raycast.value[0].worldTransform)
    ensures !PlaneAccepts(raycast) ==> r == s
  {
    match raycast
    case None => s
    case Some(results) =>
      if |results| == 0 then s
      else if !results[0].onPlaneAnchor then s
      else AddToSceneRoot(s, template, results[0].worldTransform)
  }

  /** The guards of `addNodeToImage`: the front-most hit is an image cover. */
  predicate ImageAccepts(hits: seq<NodeHit>)
  {
    |hits| > 0 && hits[0].name == Some("image")
  }

  /** `addNodeToImage`: the clone stands upright on the image cover it hit. */
  function AddNodeToImage(s: State, template: TemplateId, hits: seq<NodeHit>): (r: State)
    ensures ImageAccepts(hits) ==> r == AddToSceneRoot(s, template, PitchedUp(hits[0].worldTransform))
    ensures !ImageAccepts(hits) ==> r == s
  {
    if |hits| == 0 then s
    else if hits[0].name != Some("image") then s
    else AddToSceneRoot(s, template, PitchedUp(hits[0].worldTransform))
  }

  /** `addNodeInFront`: the clone is placed in front of the camera of the
      current frame; without a frame nothing happens. */
  function AddNodeInFront(s: State, template: TemplateId, camera: Option<Pose>): (r: State)
    ensures camera.Some? ==> r == AddToSceneRoot(s, template, InFrontOf(camera.value))
    ensures camera.None? ==> r == s
  {
    match camera
    case None => s
    case Some(c) => AddToSceneRoot(s, template, InFrontOf(c))
  }

  // ---------------------------------------------------------------------
  // Hit targeting

  /** The node a tap in transform mode resolves to, if any hit survives the filter. */
  function TappedOwner(s: State, hits: seq<NodeHit>): Option<Option<NodeId>>
  {
    match FirstTarget(hits)
    case None => None
    case Some(h) => Some(Owner(Ids(s.objects), h))
  }

  /** `findNode`: the first hit that is not helper geometry selects its owner;
      selecting the current target again clears the highlight. */
  function FindNode(s: State, hits: seq<NodeHit>): (r: State)
    ensures AllHelpers(hits) ==> r == s
    ensures !AllHelpers(hits) ==>
              exists k :: 0 <= k < |hits| && !IsHelper(hits[k]) && AllHelpers(hits[..k]) &&
                var owner := Owner(Ids(s.objects), hits[k]);
                r.highlighted == (if s.highlighted == owner then None else owner)
    ensures !AllHelpers(hits) ==> r == SetHighlighted(s, r.highlighted)
    ensures r == s.(highlighted := r.highlighted, opacity := r.opacity)
    ensures HighlightConsistent(s) ==> HighlightConsistent(r)
  {
    match TappedOwner(s, hits)
    case None => s
    case Some(owner) =>
      if s.highlighted == owner then SetHighlighted(s, None) else SetHighlighted(s, owner)
  }

  // ---------------------------------------------------------------------
  // Touch dispatch

  /** Whether the placement mode's guards let a touch create an object. */
  predicate Places(mode: PlacementMode, q: TouchQueries)
  {
    match mode
    case Freeform => q.camera.Some?
    case Plane => PlaneAccepts(q.raycast)
    case Image => ImageAccepts(q.closestHits)
    case Transform => false
  }

  /** `touchesBegan`: with a touch and a selected template, creation modes
      place one clone and transform mode runs hit targeting. */
  function TouchesBegan(s: State, touched: bool, q: TouchQueries): (r: State)
    ensures !touched || s.selected.None? ==> r == s
    ensures r.objects == s.objects ||
              (s.selected.Some? && |r.objects| == |s.objects| + 1 && r.objects[..|s.objects|] == s.objects &&
               r.objects[|s.objects|].id == s.nextId && r.objects[|s.objects|].template == s.selected.value)
    ensures r.objects != s.objects <==> touched && s.selected.Some? && Places(s.objectMode, q)
    ensures r.nextId == if r.objects != s.objects then s.nextId + 1 else s.nextId
    ensures s.objectMode != Transform && !Places(s.objectMode, q) ==> r == s
    ensures s.objectMode == Transform ==> r.objects == s.objects
    ensures r.objects != s.objects && s.objectMode == Plane ==> r.objects[|s.objects|].pose == q.raycast.value[0].worldTransform
    ensures r.objects != s.objects && s.objectMode == Image ==> r.objects[|s.objects|].pose == PitchedUp(q.closestHits[0].worldTransform)
    ensures r.objects != s.objects && s.objectMode == Freeform ==> r.objects[|s.objects|].pose == InFrontOf(q.camera.value)
    ensures s.objectMode != Transform ==> r.highlighted == s.highlighted && r.opacity == s.opacity
    ensures touched && s.selected.Some? && s.objectMode == Transform ==> r == FindNode(s, q.allHits)
    ensures r.planes == s.planes && r.planesHidden == s.planesHidden && r.selected == s.selected
    ensures r.objectMode == s.objectMode && r.transformMode == s.transformMode
  {
    if !touched then s
    else match s.selected
      case None => s
      case Some(template) =>
        match s.objectMode
        case Freeform => AddNodeInFront(s, template, q.camera)
        case Image => AddNodeToImage(s, template, q.closestHits)
        case Plane => AddNodeToPlane(s, template, q.raycast)
        case Transform => FindNode(s, q.allHits)
  }

  /** Applies one gesture kind to a pose. */
  function Manipulated(kind: TransformMode, p: Pose, d: Delta): Pose
  {
    match kind
    case Move => Moved(p, d)
    case Rotate => Rotated(p, d)
    case Scale => Scaled(p, d)
  }

  /** Replaces the pose of the node `id` (wherever it occurs) by its manipulated pose. */
  function Repose(objects: seq<PlacedObject>, id: NodeId, kind: TransformMode, d: Delta): (r: seq<PlacedObject>)
    ensures |r| == |objects|
    ensures forall i :: 0 <= i < |objects| ==>
              r[i].id == objects[i].id && r[i].template == objects[i].template
    ensures forall i :: 0 <= i < |objects| && objects[i].id != id ==> r[i] == objects[i]
    ensures forall i :: 0 <= i < |objects| && objects[i].id == id ==>
              r[i].pose == Manipulated(kind, objects[i].pose, d)
  {
    seq(|objects|, i requires 0 <= i < |objects| =>
      if objects[i].id == id then objects[i].(pose := Manipulated(kind, objects[i].pose, d)) else objects[i])
  }

  /** `moveNode`: needs a current frame; then the node is translated in its own frame. */
  function MoveNode(s: State, id: NodeId, d: Delta, hasFrame: bool): (r: State)
    ensures !hasFrame ==> r == s
    ensures r == s.(objects := r.objects)
    ensures |r.objects| == |s.objects|
    ensures forall i :: 0 <= i < |s.objects| && s.objects[i].id != id ==> r.objects[i] == s.objects[i]
    ensures hasFrame ==> forall i :: 0 <= i < |s.objects| && s.objects[i].id == id ==>
              r.objects[i] == s.objects[i].(pose := Moved(s.objects[i].pose, d))
  {
    if !hasFrame then s else s.(objects := Repose(s.objects, id, Move, d))
  }

  /** `rotateNode`: has no frame guard; the node is always rotated in its own frame. */
  function RotateNode(s: State, id: NodeId, d: Delta): (r: State)
    ensures r == s.(objects := r.objects)
    ensures |r.objects| == |s.objects|
    ensures forall i :: 0 <= i < |s.objects| && s.objects[i].id != id ==> r.objects[i] == s.objects[i]
    ensures forall i :: 0 <= i < |s.objects| && s.objects[i].id == id ==>
              r.objects[i] == s.objects[i].(pose := Rotated(s.objects[i].pose, d))
  {
    s.(objects := Repose(s.objects, id, Rotate, d))
  }

  /** `scaleNode`: needs a current frame; the factor itself is not checked,
      so a factor of zero or below is applied like any other. */
  function ScaleNode(s: State, id: NodeId, d: Delta, hasFrame: bool): (r: State)
    ensures !hasFrame ==> r == s
    ensures r == s.(objects := r.objects)
    ensures |r.objects| == |s.objects|
    ensures forall i :: 0 <= i < |s.objects| && s.objects[i].id != id ==> r.objects[i] == s.objects[i]
    ensures hasFrame ==> forall i :: 0 <= i < |s.objects| && s.objects[i].id == id ==>
              r.objects[i] == s.objects[i].(pose := Product(s.objects[i].pose, UniformScale(ScaleFactor(d))))
  {
    if !hasFrame then s else s.(objects := Repose(s.objects, id, Scale, d))
  }

  /** The node a touch move manipulates: the last placed object in freeform
      and plane mode, the highlighted node in transform mode, none in image mode. */
  function MoveTarget(s: State): Option<NodeId>
  {
    match s.objectMode
    case Freeform => if s.objects == [] then None else Some(s.objects[|s.objects| - 1].id)
    case Plane => if s.objects == [] then None else Some(s.objects[|s.objects| - 1].id)
    case Image => None
    case Transform => s.highlighted
  }

  /** The gesture a touch move applies, given whether ARKit has a current frame. */
  function MoveGesture(s: State, hasFrame: bool): Option<TransformMode>
  {
    match s.objectMode
    case Freeform => Some(Rotate)
    case Plane => if hasFrame then Some(Move) else None
    case Image => None
    case Transform =>
      match s.transformMode
      case Move => if hasFrame then Some(Move) else None
      case Rotate => Some(Rotate)
      case Scale => if hasFrame then Some(Scale) else None
  }

  /** `touchesMoved`: manipulates at most the target's pose and never adds,
      removes or reorders objects. */
  function TouchesMoved(s: State, delta: Option<Delta>, hasFrame: bool): (r: State)
    ensures r == s.(objects := r.objects)
    ensures |r.objects| == |s.objects|
    ensures forall i :: 0 <= i < |s.objects| ==>
              r.objects[i].id == s.objects[i].id && r.objects[i].template == s.objects[i].template
    ensures forall i :: 0 <= i < |s.objects| && r.objects[i] != s.objects[i] ==> MoveTarget(s) == Some(s.objects[i].id)
    ensures delta.None? || s.objectMode == Image ==> r == s
    ensures s.objectMode in {Freeform, Plane} && s.objects == [] ==> r == s
    ensures s.objectMode == Transform && s.highlighted.None? ==> r == s
    ensures delta.Some? && MoveTarget(s).Some? && MoveGesture(s, hasFrame).Some? ==>
              forall i :: 0 <= i < |s.objects| && s.objects[i].id == MoveTarget(s).value ==>
                r.objects[i].pose == Manipulated(MoveGesture(s, hasFrame).value, s.objects[i].pose, delta.value)
    ensures MoveGesture(s, hasFrame).None? ==> r == s
  {
    match delta
    case None => s
    case Some(d) =>
      match s.objectMode
      case Freeform =>
        if s.objects == [] then s else RotateNode(s, s.objects[|s.objects| - 1].id, d)
      case Image => s
      case Plane =>
        if s.objects == [] then s else MoveNode(s, s.objects[|s.objects| - 1].id, d, hasFrame)
      case Transform =>
        match s.highlighted
        case None => s
        case Some(n) =>
          match s.transformMode
          case Move => MoveNode(s, n, d, hasFrame)
          case Rotate => RotateNode(s, n, d)
          case Scale => ScaleNode(s, n, d, hasFrame)
  }
}
