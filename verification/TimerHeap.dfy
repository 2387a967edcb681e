/** The queue of timer jobs: a binary heap in a vector, ordered by the inverted comparator. */
module TimerHeap {

  datatype TimerJob = TimerJob(id: nat, tick: int)

  /** TimerJobComparator: "less" in the queue's order means a later tick. */
  predicate Comparator(lhs: TimerJob, rhs: TimerJob) {
    lhs.tick > rhs.tick
  }

  function Parent(i: nat): nat
    requires i > 0
  {
    (i - 1) / 2
  }

  /** The entry at `i` is in order with its parent. */
  predicate InOrder(a: seq<TimerJob>, i: nat)
    requires 0 < i < |a|
  {
    !Comparator(a[Parent(i)], a[i])
  }

  predicate Heap(a: seq<TimerJob>) {
    forall i :: 0 < i < |a| ==> InOrder(a, i)
  }

  function Swap(a: seq<TimerJob>, i: nat, j: nat): (r: seq<TimerJob>)
    requires i < |a| && j < |a|
    ensures |r| == |a| && multiset(r) == multiset(a)
  {
    a[i := a[j]][j := a[i]]
  }

  // ----- push -----

  function SiftUp(a: seq<TimerJob>, i: nat): (r: seq<TimerJob>)
    requires i < |a|
    ensures |r| == |a| && multiset(r) == multiset(a)
    decreases i
  {
    if i == 0 || InOrder(a, i) then a else SiftUp(Swap(a, i, Parent(i)), Parent(i))
  }

  function PushHeap(a: seq<TimerJob>, x: TimerJob): (r: seq<TimerJob>)
    ensures |r| == |a| + 1 && multiset(r) == multiset(a) + multiset{x}
  {
    SiftUp(a + [x], |a|)
  }

  /** A heap but for the entry at `i`, which may be smaller than its ancestors. */
  predicate HeapAbove(a: seq<TimerJob>, i: nat) {
    && (forall j :: 0 < j < |a| && j != i ==> InOrder(a, j))
    && (forall j :: 0 < i < |a| && 0 < j < |a| && Parent(j) == i ==> a[Parent(i)].tick <= a[j].tick)
  }

  lemma {:induction false} SiftUpHeap(a: seq<TimerJob>, i: nat)
    requires i < |a| && HeapAbove(a, i)
    ensures Heap(SiftUp(a, i))
    decreases i
  {
    if i != 0 && !InOrder(a, i) {
      var p := Parent(i);
      var b := Swap(a, i, p);
      forall j | 0 < j < |b| && j != p
        ensures InOrder(b, j)
      {
        assert j != i ==> InOrder(a, j);
      }
      forall j | 0 < p < |b| && 0 < j < |b| && Parent(j) == p
        ensures b[Parent(p)].tick <= b[j].tick
      {
        assert InOrder(a, p) && (j != i ==> InOrder(a, j));
      }
      SiftUpHeap(b, p);
    }
  }

  /** An entry that is not smaller than the top never displaces it, not even on a tie. */
  lemma {:induction false} SiftUpTop(a: seq<TimerJob>, i: nat)
    requires 0 < i < |a| && a[0].tick <= a[i].tick
    ensures SiftUp(a, i)[0] == a[0]
    decreases i
  {
    if !InOrder(a, i) {
      assert Parent(i) != 0;
      SiftUpTop(Swap(a, i, Parent(i)), Parent(i));
    }
  }

  lemma PushKeepsHeap(a: seq<TimerJob>, x: TimerJob)
    requires Heap(a)
    ensures Heap(PushHeap(a, x))
  {
    forall j | 0 < j < |a|
      ensures InOrder(a + [x], j)
    {
      assert InOrder(a, j);
    }
    SiftUpHeap(a + [x], |a|);
  }

  lemma PushKeepsTop(a: seq<TimerJob>, x: TimerJob)
    requires a != [] && a[0].tick <= x.tick
    ensures PushHeap(a, x)[0] == a[0]
  {
    SiftUpTop(a + [x], |a|);
  }

  // ----- pop -----

  /** The child of `i` with the earlier tick. */
  function SmallChild(a: seq<TimerJob>, i: nat): (c: nat)
    requires 2 * i + 1 < |a|
    ensures i < c < |a| && Parent(c) == i
    ensures forall j :: 0 < j < |a| && Parent(j) == i ==> a[c].tick <= a[j].tick
  {
    var l := 2 * i + 1;
    assert forall j :: 0 < j < |a| && Parent(j) == i ==> j == l || j == l + 1;
    if l + 1 < |a| && Comparator(a[l], a[l + 1]) then l + 1 else l
  }

  function SiftDown(a: seq<TimerJob>, i: nat): (r: seq<TimerJob>)
    requires i < |a|
    ensures |r| == |a| && multiset(r) == multiset(a)
    decreases |a| - i
  {
    if 2 * i + 1 >= |a| then a
    else
      var c := SmallChild(a, i);
      if InOrder(a, c) then a else SiftDown(Swap(a, i, c), c)
  }

  /** The last entry replaces the first and sinks to its place. */
  function PopHeap(a: seq<TimerJob>): (r: seq<TimerJob>)
    requires a != []
    ensures |r| == |a| - 1 && multiset(r) == multiset(a) - multiset{a[0]}
  {
    var last := |a| - 1;
    assert a == a[..last] + [a[last]];
    if last == 0 then []
    else
      assert a[..last] == [a[0]] + a[1..last];
      assert a[..last][0 := a[last]] == [a[last]] + a[1..last];
      SiftDown(a[..last][0 := a[last]], 0)
  }

  /** A heap but for the entry at `i`, which may be larger than its descendants. */
  predicate HeapBelow(a: seq<TimerJob>, i: nat) {
    && (forall j :: 0 < j < |a| && Parent(j) != i ==> InOrder(a, j))
    && (forall j :: 0 < i < |a| && 0 < j < |a| && Parent(j) == i ==> a[Parent(i)].tick <= a[j].tick)
  }

  lemma {:induction false} SiftDownHeap(a: seq<TimerJob>, i: nat)
    requires i < |a| && HeapBelow(a, i)
    ensures Heap(SiftDown(a, i))
    decreases |a| - i
  {
    if 2 * i + 1 < |a| {
      var c := SmallChild(a, i);
      if !InOrder(a, c) {
        var b := Swap(a, i, c);
        forall j | 0 < j < |b| && Parent(j) != c
          ensures InOrder(b, j)
        {
          assert Parent(j) != i ==> InOrder(a, j);
        }
        forall j | 0 < c < |b| && 0 < j < |b| && Parent(j) == c
          ensures b[Parent(c)].tick <= b[j].tick
        {
          assert InOrder(a, j);
        }
        SiftDownHeap(b, c);
      } else {
        forall j | 0 < j < |a|
          ensures InOrder(a, j)
        {
        }
      }
    }
  }

  lemma PopKeepsHeap(a: seq<TimerJob>)
    requires Heap(a) && a != []
    ensures Heap(PopHeap(a))
  {
    var last := |a| - 1;
    if last != 0 {
      var b := a[..last][0 := a[last]];
      forall j | 0 < j < |b| && Parent(j) != 0
        ensures InOrder(b, j)
      {
        assert InOrder(a, j);
      }
      SiftDownHeap(b, 0);
    }
  }

  /** The top has the earliest tick. */
  lemma {:induction false} TopIsEarliest(a: seq<TimerJob>, i: nat)
    requires Heap(a) && i < |a|
    ensures a[0].tick <= a[i].tick
    decreases i
  {
    if i != 0 {
      assert InOrder(a, i);
      TopIsEarliest(a, Parent(i));
    }
  }

  lemma TopIsMinimum(a: seq<TimerJob>)
    requires Heap(a) && a != []
    ensures forall x :: x in multiset(a) ==> a[0].tick <= x.tick
  {
    forall x | x in multiset(a)
      ensures a[0].tick <= x.tick
    {
      var i :| 0 <= i < |a| && a[i] == x;
      TopIsEarliest(a, i);
    }
  }
}
