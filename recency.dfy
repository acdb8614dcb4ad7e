/** The per-set recency list of the 4-way cache.  The source keeps it as a
    doubly linked list of way indices; here the list is the sequence of its
    nodes' data from head to tail, which is all that add, delete and getTail
    observe. */
module Recency {

  /** The list with its first occurrence of `num` unlinked, as delete does. */
  function Remove(order: seq<int>, num: int): (r: seq<int>)
    ensures num !in order ==> r == order
    ensures |r| <= |order|
  {
    if order == [] then []
    else if order[0] == num then order[1..]
    else [order[0]] + Remove(order[1..], num)
  }

  /** Unlinking a present element takes exactly one copy of it away. */
  lemma {:induction false} RemoveOne(order: seq<int>, num: int)
    requires num in order
    ensures |Remove(order, num)| == |order| - 1
    ensures multiset(Remove(order, num)) == multiset(order) - multiset{num}
  {
    assert order == [order[0]] + order[1..];
    if order[0] != num {
      RemoveOne(order[1..], num);
    }
  }

  /** Removing the first occurrence, found at index i, leaves what stands on
      either side of i. */
  lemma {:induction false} RemoveFirst(order: seq<int>, num: int, i: nat)
    requires i < |order| && order[i] == num && num !in order[..i]
    ensures Remove(order, num) == order[..i] + order[i + 1..]
  {
    if i > 0 {
      var tail := order[1..];
      assert order[0] == order[..i][0];
      assert tail[..i - 1] == order[1..i];
      assert num !in tail[..i - 1] by {
        forall k | 0 <= k < i - 1 ensures tail[k] != num {
          assert tail[k] == order[..i][k + 1];
        }
      }
      RemoveFirst(tail, num, i - 1);
      assert Remove(order, num) == [order[0]] + (tail[..i - 1] + tail[i..]);
      assert tail[i..] == order[i + 1..];
      assert order[..i] == [order[0]] + tail[..i - 1];
    }
  }

  /** Every element except `x`, in their original order. */
  function Without(s: seq<int>, x: int): (r: seq<int>)
    ensures x !in r && |r| <= |s|
  {
    if s == [] then []
    else (if s[0] == x then [] else [s[0]]) + Without(s[1..], x)
  }

  /** Unlinking one occurrence of `num` leaves every other element in the
      relative order it had. */
  lemma {:induction false} RemoveKeepsOthersInOrder(order: seq<int>, num: int)
    ensures Without(Remove(order, num), num) == Without(order, num)
  {
    if order != [] && order[0] != num {
      RemoveKeepsOthersInOrder(order[1..], num);
      var r := Remove(order, num);
      assert r[0] == order[0] && r[1..] == Remove(order[1..], num);
    }
  }

  /** delete(w) followed by add(w).  When w is absent, delete empties the
      list, so only w is left.  The list that is the single node w is
      excluded, as in LinkedList.Delete: the source dereferences a null head
      there. */
  function MoveToFront(order: seq<int>, w: int): (r: seq<int>)
    requires order != [w]
    ensures |r| > 0 && r[0] == w
    ensures w in order ==> |r| == |order|
    ensures w !in order ==> r == [w]
  {
    if w in order then RemoveOne(order, w); [w] + Remove(order, w)
    else [w]
  }

  /** The invariant of every set's list: four entries, among them each way
      index 0..3, so each exactly once (WayOrderIsPermutation). */
  predicate IsWayOrder(order: seq<int>)
  {
    |order| == 4 && 0 in order && 1 in order && 2 in order && 3 in order
  }

  /** The order that initializeFourWayCache builds by adding 0, 1, 2, 3 to an
      empty list: each add prepends, so way 3 is at the head and way 0, the
      least recently used, at the tail. */
  const InitialOrder: seq<int> := [3, 2, 1, 0]

  lemma InitialOrderIsWayOrder()
    ensures IsWayOrder(InitialOrder) && InitialOrder[3] == 0
  {
    assert InitialOrder[3] == 0 && InitialOrder[2] == 1;
    assert InitialOrder[1] == 2 && InitialOrder[0] == 3;
  }

  /** In a way order every entry is a way index, every way index occurs, and
      no two entries are equal. */
  lemma WayOrderElements(order: seq<int>)
    requires IsWayOrder(order)
    ensures forall k :: 0 <= k < 4 ==> 0 <= order[k] < 4
    ensures forall w :: 0 <= w < 4 ==> w in order
    ensures forall i, j :: 0 <= i < j < 4 ==> order[i] != order[j]
  {
    var i0 :| 0 <= i0 < 4 && order[i0] == 0;
    var i1 :| 0 <= i1 < 4 && order[i1] == 1;
    var i2 :| 0 <= i2 < 4 && order[i2] == 2;
    var i3 :| 0 <= i3 < 4 && order[i3] == 3;
    forall k | 0 <= k < 4 ensures 0 <= order[k] < 4 {
      assert k == i0 || k == i1 || k == i2 || k == i3;
    }
  }

  /** A way order is a permutation of the four way indices. */
  lemma WayOrderIsPermutation(order: seq<int>)
    requires IsWayOrder(order)
    ensures multiset(order) == multiset{0, 1, 2, 3}
  {
    WayOrderElements(order);
    assert order == [order[0]] + [order[1]] + [order[2]] + [order[3]];
    FourDistinctWays(order[0], order[1], order[2], order[3]);
  }

  /** Four distinct way indices are the four way indices. */
  lemma FourDistinctWays(a: int, b: int, c: int, d: int)
    requires 0 <= a < 4 && 0 <= b < 4 && 0 <= c < 4 && 0 <= d < 4
    requires a != b && a != c && a != d && b != c && b != d && c != d
    ensures multiset{a} + multiset{b} + multiset{c} + multiset{d} == multiset{0, 1, 2, 3}
  {
    var m := multiset{a} + multiset{b} + multiset{c} + multiset{d};
    forall x ensures m[x] == multiset{0, 1, 2, 3}[x] {
    }
  }

  /** Unlinking `num` keeps every other element. */
  lemma RemoveKeepsOthers(order: seq<int>, num: int, x: int)
    requires x != num && x in order
    ensures x in Remove(order, num)
  {
    if num in order {
      RemoveOne(order, num);
      assert x in multiset(order);
    }
  }

  /** Touching a way keeps the list a permutation of the four ways, puts the
      way at the head and keeps the other three in their relative order. */
  lemma MoveToFrontKeepsWayOrder(order: seq<int>, w: int)
    requires IsWayOrder(order) && 0 <= w < 4
    ensures IsWayOrder(MoveToFront(order, w))
    ensures MoveToFront(order, w)[0] == w
    ensures Without(MoveToFront(order, w), w) == Without(order, w)
  {
    var m := MoveToFront(order, w);
    assert IsWayOrder(m) by {
      RemoveOne(order, w);
      forall x | 0 <= x < 4 && x != w ensures x in m {
        RemoveKeepsOthers(order, w, x);
      }
    }
    assert Without(m, w) == Without(order, w) by {
      assert m[1..] == Remove(order, w);
      RemoveKeepsOthersInOrder(order, w);
    }
  }

  /** A LinkedList of the source: `order` holds the nodes' data from head to
      tail. */
  class LinkedList {
    var order: seq<int>

    constructor ()
      ensures order == []
    {
      order := [];
    }

    /** Prepends a node (the source's comment says "end", the code links the
        new node in before the head). */
    method Add(num: int)
      modifies this
      ensures order == [num] + old(order)
    {
      order := [num] + order;
    }

    /** Unlinks the first node holding `num` and reports whether there was
        one.  When there is none the source sets head to null, emptying the
        list.  Deleting the only node dereferences a null head in the source,
        so that case is excluded. */
    method Delete(num: int) returns (found: bool)
      requires order != [num]
      modifies this
      ensures found == (num in old(order))
      ensures order == if found then Remove(old(order), num) else []
    {
      var cur := 0;
      while cur < |order|
        invariant 0 <= cur <= |order|
        invariant num !in order[..cur]
      {
        if order[cur] == num {
          RemoveFirst(order, num, cur);
          order := order[..cur] + order[cur + 1..];
          return true;
        }
        cur := cur + 1;
      }
      assert order[..cur] == order;
      order := [];
      return false;
    }

    /** Walks from the head to the last node and returns its data.  With
        fewer than two nodes the source's result depends on a stale tail
        pointer or dereferences null, so the list must hold two or more. */
    method GetTail() returns (data: int)
      requires |order| >= 2
      ensures data == order[|order| - 1]
    {
      var cur := 0;
      while cur + 1 < |order|
        invariant 0 <= cur < |order|
      {
        cur := cur + 1;
      }
      data := order[cur];
    }
  }
}
