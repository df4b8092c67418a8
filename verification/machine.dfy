/** The view controller as an event-driven machine: every handler is one
    kind of event, and the session invariant holds in every reachable state.

    Events are delivered one at a time and each runs to completion. In the app
    the anchor callback runs on SceneKit's rendering thread while the other
    handlers run on the main thread, with no synchronisation; the lemmas here
    say nothing about interleavings of the two. */
module Machine {
  import opened Optional
  import opened Geometry
  import opened HitTest
  import opened Session

  /** One call into the view controller, with the data the handler receives. */
  datatype Event =
    | ObjectModeChanged(index: int)
    | TransformModeChanged(index: int)
    | TemplateSelected(template: TemplateId)
    | PlanesToggled
    | UndoRequested
    | ConfigurationReloaded
    | NodeAddedForAnchor(anchor: Anchor)
    | TouchBegan(touched: bool, queries: TouchQueries)
    | TouchMoved(delta: Option<Delta>, hasFrame: bool)

  function Step(s: State, e: Event): State
  {
    match e
    case ObjectModeChanged(index) => ChangeObjectMode(s, index)
    case TransformModeChanged(index) => ChangeTransformMode(s, index)
    case TemplateSelected(template) => SelectTemplate(s, template)
    case PlanesToggled => TogglePlaneVisualization(s)
    case UndoRequested => Undo(s)
    case ConfigurationReloaded => Reload(s)
    case NodeAddedForAnchor(anchor) => AnchorAdded(s, anchor)
    case TouchBegan(touched, queries) => TouchesBegan(s, touched, queries)
    case TouchMoved(delta, hasFrame) => TouchesMoved(s, delta, hasFrame)
  }

  function Run(s: State, events: seq<Event>): State
    decreases |events|
  {
    if events == [] then s else Run(Step(s, events[0]), events[1..])
  }

  /** Every clone has its own identity, issued before `nextId`. */
  predicate FreshIds(s: State)
  {
    && (forall i :: 0 <= i < |s.objects| ==> s.objects[i].id < s.nextId)
    && (forall i, j :: 0 <= i < j < |s.objects| ==> s.objects[i].id != s.objects[j].id)
  }

  /** The session invariant: plane visuals mirror the hidden flag, exactly the
      highlighted node is dimmed, and placed objects are distinct clones. */
  predicate Valid(s: State)
  {
    PlanesSynced(s) && HighlightConsistent(s) && FreshIds(s)
  }

  lemma InitialValid()
    ensures Valid(Initial())
  {
  }

  /** Removing the last object or appending a fresh clone keeps identities distinct. */
  lemma PlacementKeepsIdsFresh(s: State, r: State)
    requires FreshIds(s)
    requires r.nextId >= s.nextId
    requires r.objects == s.objects ||
             (|r.objects| == |s.objects| + 1 && r.objects[..|s.objects|] == s.objects &&
              r.objects[|s.objects|].id == s.nextId && r.nextId > s.nextId) ||
             (s.objects != [] && r.objects + [s.objects[|s.objects| - 1]] == s.objects)
    ensures FreshIds(r)
  {
    if r.objects != s.objects && |r.objects| == |s.objects| + 1 {
      forall i | 0 <= i < |s.objects|
        ensures r.objects[i] == s.objects[i]
      {
        assert r.objects[i] == r.objects[..|s.objects|][i];
      }
    } else if r.objects != s.objects {
      forall i | 0 <= i < |r.objects|
        ensures r.objects[i] == s.objects[i]
      {
        assert s.objects[i] == (r.objects + [s.objects[|s.objects| - 1]])[i];
      }
    }
  }

  lemma StepPreservesValid(s: State, e: Event)
    requires Valid(s)
    ensures Valid(Step(s, e))
  {
    var r := Step(s, e);
    match e
    case UndoRequested =>
      PlacementKeepsIdsFresh(s, r);
    case TouchBegan(touched, queries) =>
      if touched && s.selected.Some? && s.objectMode != Transform && r.objects != s.objects {
        assert r.nextId == s.nextId + 1 by {
          match s.objectMode
          case Freeform =>
          case Plane =>
          case Image =>
        }
      }
      PlacementKeepsIdsFresh(s, r);
    case TouchMoved(delta, hasFrame) =>
      assert FreshIds(r);
    case _ =>
  }

  /** Whatever serial sequence of handler calls runs, the invariant survives it. */
  lemma {:induction false} RunPreservesValid(s: State, events: seq<Event>)
    requires Valid(s)
    ensures Valid(Run(s, events))
    decreases |events|
  {
    if events != [] {
      StepPreservesValid(s, events[0]);
      RunPreservesValid(Step(s, events[0]), events[1..]);
    }
  }

  /** In every state a serial run reaches, at most one node carries the
      highlight opacity, and it is the highlighted node. */
  lemma ReachableHighlightIsUnique(events: seq<Event>, a: NodeId, b: NodeId)
    ensures var s := Run(Initial(), events);
            a in DimmedNodes(s) && b in DimmedNodes(s) ==> a == b && s.highlighted == Some(a)
  {
    InitialValid();
    RunPreservesValid(Initial(), events);
  }

  /** In every state a serial run reaches, each plane visual shows the global
      hidden flag. This needs serial delivery: if the anchor callback reads the
      flag, a main-thread handler then assigns it, and only then the new visual
      is appended, that visual keeps the stale flag. */
  lemma ReachablePlanesSynced(events: seq<Event>)
    ensures PlanesSynced(Run(Initial(), events))
  {
    InitialValid();
    RunPreservesValid(Initial(), events);
  }
}
