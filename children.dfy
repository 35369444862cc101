/** Which node of a parent's child-record list `updateChildTHreadRecordNode` stamps.
    The cursor starts at the root and, while the current node has a successor and a
    non-zero `pthread_t_value`, moves on one node and stops there if that node's
    value equals the searched one. So the root's value is never compared with the
    searched value, and a node whose value is zero ends the walk. */
module Children {
  import opened Records

  /** The walk comes to rest at node `i`. */
  predicate Stops(list: seq<ChildRecord>, target: u64, i: nat)
    requires i < |list|
  {
    || i == |list| - 1
    || list[i].pthreadTValue == 0
    || (i > 0 && list[i].pthreadTValue == target)
  }

  /** The node the walk selects when it is at node `i`: the first node from `i` on at which it stops. */
  function SelectFrom(list: seq<ChildRecord>, target: u64, i: nat): (k: nat)
    requires i < |list|
    ensures i <= k < |list|
    ensures Stops(list, target, k)
    ensures forall j :: i <= j < k ==> !Stops(list, target, j)
    decreases |list| - i
  {
    if Stops(list, target, i) then i else SelectFrom(list, target, i + 1)
  }

  /** The node the update stamps. */
  function Selected(list: seq<ChildRecord>, target: u64): (k: nat)
    requires list != []
    ensures k < |list| && Stops(list, target, k)
    ensures forall j :: 0 <= j < k ==> !Stops(list, target, j)
  {
    SelectFrom(list, target, 0)
  }

  /** The root is stamped only when it is the only node or its value is zero, even
      when its value is the searched one. */
  lemma RootSelection(list: seq<ChildRecord>, target: u64)
    requires list != []
    ensures Selected(list, target) == 0 <==> |list| == 1 || list[0].pthreadTValue == 0
  {
  }

  /** When a non-root node carries the searched value and no node before it has a
      zero value, the first such non-root node is the one stamped. */
  lemma {:induction false} SelectsFirstMatch(list: seq<ChildRecord>, target: u64, m: nat)
    requires 0 < m < |list| && list[m].pthreadTValue == target
    requires forall j :: 0 <= j < m ==> list[j].pthreadTValue != 0
    ensures Selected(list, target) <= m
    ensures list[Selected(list, target)].pthreadTValue == target
    ensures forall j :: 0 < j < Selected(list, target) ==> list[j].pthreadTValue != target
  {
    var k := Selected(list, target);
    if k > m {
      assert Stops(list, target, m);
    }
    forall j | 0 < j < k ensures list[j].pthreadTValue != target {
      assert !Stops(list, target, j);
    }
  }

  /** When every value is non-zero and no non-root node carries the searched value,
      the last node is stamped. */
  lemma SelectsLastWithoutMatch(list: seq<ChildRecord>, target: u64)
    requires list != []
    requires forall j :: 0 <= j < |list| ==> list[j].pthreadTValue != 0
    requires forall j :: 0 < j < |list| ==> list[j].pthreadTValue != target
    ensures Selected(list, target) == |list| - 1
  {
  }
}
