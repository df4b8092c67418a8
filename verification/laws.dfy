/** Laws that relate several calls of the view controller's handlers. */
module Laws {
  import opened Optional
  import opened Geometry
  import opened HitTest
  import opened Session

  // ---------------------------------------------------------------------
  // Placement and undo

  /** Undo takes back exactly the clone the last placement added; only the
      identity counter remembers that it existed. */
  lemma UndoAfterPlacement(s: State, template: TemplateId, pose: Pose)
    ensures Undo(AddToSceneRoot(s, template, pose)) == s.(nextId := s.nextId + 1)
  {
    var placed := AddToSceneRoot(s, template, pose);
    assert placed.objects[..|placed.objects| - 1] == s.objects;
  }

  /** A clone request: the template to clone and the pose it is given. */
  datatype Placement = Placement(template: TemplateId, pose: Pose)

  /** Placing each request in turn, oldest first. */
  function PlaceAll(s: State, ps: seq<Placement>): (r: State)
    ensures |r.objects| == |s.objects| + |ps|
    ensures r.objects[..|s.objects|] == s.objects
    ensures forall i :: 0 <= i < |ps| ==>
              r.objects[|s.objects| + i] == PlacedObject(s.nextId + i, ps[i].template, ps[i].pose)
    ensures r == s.(objects := r.objects, nextId := s.nextId + |ps|)
    decreases |ps|
  {
    if ps == [] then s
    else
      var before := PlaceAll(s, ps[..|ps| - 1]);
      AddToSceneRoot(before, ps[|ps| - 1].template, ps[|ps| - 1].pose)
  }

  /** `n` consecutive undo requests. */
  function UndoTimes(s: State, n: nat): State
    decreases n
  {
    if n == 0 then s else UndoTimes(Undo(s), n - 1)
  }

  /** Each undo drops one object from the end until the list is empty, and
      nothing else in the state changes. */
  lemma {:induction false} UndoTimesTruncates(s: State, n: nat)
    ensures var keep := if n <= |s.objects| then |s.objects| - n else 0;
            UndoTimes(s, n) == s.(objects := s.objects[..keep])
    decreases n
  {
    if n > 0 {
      UndoTimesTruncates(Undo(s), n - 1);
      if s.objects != [] {
        var keep := if n <= |s.objects| then |s.objects| - n else 0;
        assert Undo(s).objects[..keep] == s.objects[..keep];
      }
    } else {
      assert s.objects[..|s.objects|] == s.objects;
    }
  }

  /** As many undos as there are objects empty the list. */
  lemma UndoAllEmpties(s: State)
    ensures UndoTimes(s, |s.objects|).objects == []
  {
    UndoTimesTruncates(s, |s.objects|);
  }

  /** Undo is strictly last-in first-out: undoing as many times as objects
      were placed restores the object list exactly. */
  lemma UndoReversesPlacements(s: State, ps: seq<Placement>)
    ensures UndoTimes(PlaceAll(s, ps), |ps|).objects == s.objects
  {
    var placed := PlaceAll(s, ps);
    UndoTimesTruncates(placed, |ps|);
  }

  // ---------------------------------------------------------------------
  // Plane visibility

  /** Toggling twice in plane mode restores the state, provided the visuals
      already showed the flag. */
  lemma ToggleTwiceRestores(s: State)
    requires PlanesSynced(s)
    ensures TogglePlaneVisualization(TogglePlaneVisualization(s)) == s
  {
    var r := TogglePlaneVisualization(TogglePlaneVisualization(s));
    if s.objectMode == Plane {
      assert |r.planes| == |s.planes|;
      forall i | 0 <= i < |s.planes|
        ensures r.planes[i] == s.planes[i]
      {
      }
    }
  }

  /** Switching to the same segment twice has the effect of switching once. */
  lemma ChangeObjectModeIdempotent(s: State, index: int)
    ensures ChangeObjectMode(ChangeObjectMode(s, index), index) == ChangeObjectMode(s, index)
  {
    var once := ChangeObjectMode(s, index);
    var twice := ChangeObjectMode(once, index);
    assert |twice.planes| == |once.planes|;
    forall i | 0 <= i < |once.planes|
      ensures twice.planes[i] == once.planes[i]
    {
    }
  }

  /** Reloading twice has the effect of reloading once. */
  lemma ReloadIdempotent(s: State)
    ensures Reload(Reload(s)) == Reload(s)
  {
  }

  // ---------------------------------------------------------------------
  // Hit targeting

  /** Two taps on the same hits: the highlight comes back to where it was
      when it was empty or already on the tapped owner, and is cleared otherwise. */
  lemma FindNodeTwice(s: State, hits: seq<NodeHit>)
    ensures var twice := FindNode(FindNode(s, hits), hits);
            match TappedOwner(s, hits)
            case None => twice == s
            case Some(owner) =>
              twice.highlighted == (if s.highlighted == owner || s.highlighted == None then s.highlighted else None)
  {
    var once := FindNode(s, hits);
    assert once.objects == s.objects;
    assert TappedOwner(once, hits) == TappedOwner(s, hits);
  }

  /** From no highlight, a second tap on the same owner clears the highlight
      and a third brings it back. */
  lemma FindNodeToggles(s: State, hits: seq<NodeHit>)
    requires s.highlighted.None?
    ensures FindNode(FindNode(s, hits), hits).highlighted == None
    ensures FindNode(FindNode(FindNode(s, hits), hits), hits).highlighted == FindNode(s, hits).highlighted
  {
    var once := FindNode(s, hits);
    var twice := FindNode(once, hits);
    FindNodeTwice(s, hits);
    assert twice.objects == s.objects;
    assert TappedOwner(twice, hits) == TappedOwner(s, hits);
  }

  // ---------------------------------------------------------------------
  // Manipulation

  /** The scale gesture applies whatever factor the drag gives: a drag of
      50 points or more upwards yields a factor of zero or below, and the
      target's pose is still multiplied by it. */
  lemma ScaleFactorIsUnchecked(s: State, i: nat, d: Delta)
    requires s.objectMode == Transform && s.transformMode == Scale
    requires i < |s.objects| && s.highlighted == Some(s.objects[i].id)
    ensures d.dy <= -ScaleDamping ==> ScaleFactor(d) <= 0.0
    ensures TouchesMoved(s, Some(d), true).objects[i].pose ==
            Product(s.objects[i].pose, UniformScale(ScaleFactor(d)))
  {
  }
}
