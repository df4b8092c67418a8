/** The results the app receives from ARKit and SceneKit queries, and the
    filtering `findNode` does on them. */
module HitTest {
  import opened Optional
  import opened Geometry

  /** The identity of a scene node. */
  type NodeId = nat

  /** One result of `session.raycast` against existing horizontal plane geometry. */
  datatype RaycastHit = RaycastHit(worldTransform: Pose, onPlaneAnchor: bool)

  /** One result of `sceneView.hitTest`: the node hit, its name, its parent
      node and its world transform. */
  datatype NodeHit = NodeHit(node: NodeId, name: Option<string>, parent: Option<NodeId>, worldTransform: Pose)

  /** Helper geometry that is never a manipulation target: the plane visuals
      ("floor") and the covers laid over detected images ("image"). */
  predicate IsHelper(h: NodeHit)
  {
    h.name == Some("floor") || h.name == Some("image")
  }

  /** Every hit in `hits` is helper geometry. */
  predicate AllHelpers(hits: seq<NodeHit>)
  {
    forall i :: 0 <= i < |hits| ==> IsHelper(hits[i])
  }

  /** The hits that are not helper geometry, in their original order. The
      contract states which hits remain; of their order only the first element
      matters to `findNode`, and `FirstRemainingIsFirstNonHelper` states it. */
  function WithoutHelpers(hits: seq<NodeHit>): (r: seq<NodeHit>)
    ensures |r| <= |hits|
    ensures forall h :: h in r <==> h in hits && !IsHelper(h)
    ensures r == [] <==> AllHelpers(hits)
  {
    if |hits| == 0 then []
    else if IsHelper(hits[0]) then WithoutHelpers(hits[1..])
    else [hits[0]] + WithoutHelpers(hits[1..])
  }

  /** The first hit that survives the filter is the first non-helper hit. */
  lemma {:induction false} FirstRemainingIsFirstNonHelper(hits: seq<NodeHit>)
    requires !AllHelpers(hits)
    ensures exists k :: 0 <= k < |hits| && hits[k] == WithoutHelpers(hits)[0] && AllHelpers(hits[..k])
    decreases |hits|
  {
    if IsHelper(hits[0]) {
      var tail := hits[1..];
      assert WithoutHelpers(hits) == WithoutHelpers(tail);
      var j :| 0 <= j < |hits| && !IsHelper(hits[j]);
      assert !IsHelper(tail[j - 1]);
      FirstRemainingIsFirstNonHelper(tail);
      var k :| 0 <= k < |tail| && tail[k] == WithoutHelpers(tail)[0] && AllHelpers(tail[..k]);
      assert hits[..k + 1] == [hits[0]] + tail[..k];
      assert hits[k + 1] == WithoutHelpers(hits)[0];
    } else {
      assert WithoutHelpers(hits)[0] == hits[0];
      assert AllHelpers(hits[..0]);
    }
  }

  /** `results.filter { not floor, not image }.first`. */
  function FirstTarget(hits: seq<NodeHit>): (r: Option<NodeHit>)
    ensures r.None? <==> AllHelpers(hits)
    ensures r.Some? ==> exists k :: 0 <= k < |hits| && hits[k] == r.value && !IsHelper(r.value) && AllHelpers(hits[..k])
  {
    var remaining := WithoutHelpers(hits);
    if remaining == [] then None
    else
      FirstRemainingIsFirstNonHelper(hits);
      Some(remaining[0])
  }

  /** The node a hit selects: the hit node itself when it is a placed object,
      otherwise its parent (which may be absent). */
  function Owner(objectIds: seq<NodeId>, h: NodeHit): (r: Option<NodeId>)
    ensures h.node in objectIds ==> r == Some(h.node)
    ensures h.node !in objectIds ==> r == h.parent
    ensures r.Some? ==> r.value == h.node || Some(r.value) == h.parent
  {
    if h.node in objectIds then Some(h.node) else h.parent
  }
}
