/**
 * The pieces of the drag-and-drop library that the page code calls: the
 * closest-edge hit test, `reorder` and `reorderWithEdge`. Their code is not
 * part of this model; each is written from the behaviour the library
 * documents, which is what the page code depends on.
 */
module DragAndDrop {
  import opened Wrappers
  import opened JsArray

  /** The library's `Edge` type. */
  datatype Edge = Top | Right | Bottom | Left

  datatype Axis = Vertical | Horizontal

  /**
   * `attachClosestEdge`'s choice: among the allowed edges, the one nearest to
   * the pointer (the first one on a tie), or none when no edge is allowed.
   * `distance` gives the pointer's distance to each edge of the target.
   */
  function ClosestEdge(allowed: seq<Edge>, distance: Edge -> int): (e: Option<Edge>)
    ensures e.Some? <==> |allowed| > 0
    ensures e.Some? ==> e.value in allowed
    ensures e.Some? ==> forall a :: a in allowed ==> distance(e.value) <= distance(a)
    ensures |allowed| > 0 && (forall a :: a in allowed ==> distance(allowed[0]) <= distance(a)) ==>
      e == Some(allowed[0])
    decreases |allowed|
  {
    if |allowed| == 0 then None
    else
      var rest := ClosestEdge(allowed[1..], distance);
      if rest.None? || distance(allowed[0]) <= distance(rest.value) then Some(allowed[0]) else rest
  }

  /** The indices `reorder` is ever called with here: -1 (not found) or inside the list. */
  predicate ReorderIndices(len: nat, startIndex: int, finishIndex: int)
  {
    startIndex == -1 || finishIndex == -1 || (0 <= startIndex < len && 0 <= finishIndex < len)
  }

  /**
   * `reorder({list, startIndex, finishIndex})`: a copy of the list with the
   * element at startIndex moved to finishIndex; the list itself when either
   * index is -1.
   */
  function Reorder<T>(list: seq<T>, startIndex: int, finishIndex: int): (r: seq<T>)
    requires ReorderIndices(|list|, startIndex, finishIndex)
    ensures |r| == |list| && multiset(r) == multiset(list)
    ensures startIndex == -1 || finishIndex == -1 ==> r == list
    ensures startIndex != -1 && finishIndex != -1 ==>
      r[finishIndex] == list[startIndex] && RemoveAt(r, finishIndex) == RemoveAt(list, startIndex)
  {
    if startIndex == -1 || finishIndex == -1 then list
    else
      var removed := list[startIndex];
      var rest := RemoveAt(list, startIndex);
      MultisetRemoveAt(list, startIndex);
      MultisetInsertAt(rest, finishIndex, removed);
      RemoveInsertAt(rest, finishIndex, removed);
      InsertAt(rest, finishIndex, removed)
  }

  /** Whether the closest edge asks for a place after the target on this axis. */
  predicate IsGoingAfter(closestEdgeOfTarget: Option<Edge>, axis: Axis)
  {
    || (axis == Vertical && closestEdgeOfTarget == Some(Bottom))
    || (axis == Horizontal && closestEdgeOfTarget == Some(Right))
  }

  /**
   * `getReorderDestinationIndex`: the index the moved element must finish at
   * so that it ends up on the closest-edge side of the target, accounting for
   * the shift its own removal causes.
   */
  function DestinationIndex(startIndex: int, closestEdgeOfTarget: Option<Edge>, indexOfTarget: int, axis: Axis): int
  {
    if startIndex == -1 || indexOfTarget == -1 then startIndex
    else if startIndex == indexOfTarget then startIndex
    else if closestEdgeOfTarget.None? then indexOfTarget
    else if startIndex < indexOfTarget then
      (if IsGoingAfter(closestEdgeOfTarget, axis) then indexOfTarget else indexOfTarget - 1)
    else
      (if IsGoingAfter(closestEdgeOfTarget, axis) then indexOfTarget + 1 else indexOfTarget)
  }

  /** For indices inside the list (or -1), the destination is one `reorder` accepts. */
  lemma DestinationIndexInRange(len: nat, startIndex: int, indexOfTarget: int, closestEdgeOfTarget: Option<Edge>, axis: Axis)
    requires -1 <= startIndex < len && -1 <= indexOfTarget < len
    ensures ReorderIndices(len, startIndex, DestinationIndex(startIndex, closestEdgeOfTarget, indexOfTarget, axis))
  {
  }

  /** `reorderWithEdge`: reorder towards the index DestinationIndex picks. */
  function ReorderWithEdge<T>(list: seq<T>, startIndex: int, indexOfTarget: int,
                              closestEdgeOfTarget: Option<Edge>, axis: Axis): (r: seq<T>)
    requires -1 <= startIndex < |list| && -1 <= indexOfTarget < |list|
    ensures |r| == |list| && multiset(r) == multiset(list)
    ensures startIndex == -1 || indexOfTarget == -1 || startIndex == indexOfTarget ==> r == list
  {
    var f := DestinationIndex(startIndex, closestEdgeOfTarget, indexOfTarget, axis);
    Reorder(list, startIndex, f)
  }

  /**
   * Order correctness of `reorderWithEdge`: the moved element ends directly
   * after the target when the edge says "after" (bottom, or right on the
   * horizontal axis), directly before it for any other edge, and in the
   * target's old place when there is no edge.
   */
  lemma {:induction false} ReorderWithEdgePlacesBesideTarget<T>(list: seq<T>, startIndex: nat, indexOfTarget: nat,
                                                               closestEdgeOfTarget: Option<Edge>, axis: Axis)
    requires startIndex < |list| && indexOfTarget < |list| && startIndex != indexOfTarget
    ensures var r := ReorderWithEdge(list, startIndex, indexOfTarget, closestEdgeOfTarget, axis);
      var f := DestinationIndex(startIndex, closestEdgeOfTarget, indexOfTarget, axis);
      && 0 <= f < |r| && r[f] == list[startIndex]
      && (closestEdgeOfTarget.None? ==> f == indexOfTarget)
      && (closestEdgeOfTarget.Some? && IsGoingAfter(closestEdgeOfTarget, axis) ==> 0 < f && r[f - 1] == list[indexOfTarget])
      && (closestEdgeOfTarget.Some? && !IsGoingAfter(closestEdgeOfTarget, axis) ==> f + 1 < |r| && r[f + 1] == list[indexOfTarget])
  {
    var f := DestinationIndex(startIndex, closestEdgeOfTarget, indexOfTarget, axis);
    var rest := RemoveAt(list, startIndex);
    var r := InsertAt(rest, f, list[startIndex]);
    assert r == ReorderWithEdge(list, startIndex, indexOfTarget, closestEdgeOfTarget, axis);
    // Where the target sits once the moved element is out of the list.
    var t := if startIndex < indexOfTarget then indexOfTarget - 1 else indexOfTarget;
    assert rest[t] == list[indexOfTarget];
    if closestEdgeOfTarget.Some? {
      if IsGoingAfter(closestEdgeOfTarget, axis) {
        assert f == t + 1;
        assert r[f - 1] == rest[t];
      } else {
        assert f == t;
        assert r[f + 1] == rest[t];
      }
    }
  }
}
