/** The priority queue object over the heap, and its refinement of a plain multiset. */
module TimerQueue {
  import opened TimerHeap

  /** TimerJobPriorityQueue: `c` is the underlying vector. */
  class TimerJobQueue {
    var c: seq<TimerJob>

    ghost predicate Valid()
      reads this
    {
      Heap(c)
    }

    constructor ()
      ensures Valid() && c == []
    {
      c := [];
    }

    method Empty() returns (r: bool)
      ensures r <==> c == []
    {
      r := |c| == 0;
    }

    method Top() returns (job: TimerJob)
      requires Valid() && c != []
      ensures job == c[0]
      ensures forall x :: x in multiset(c) ==> job.tick <= x.tick
    {
      TopIsMinimum(c);
      job := c[0];
    }

    method Push(x: TimerJob)
      requires Valid()
      modifies this
      ensures Valid() && c == PushHeap(old(c), x)
    {
      PushKeepsHeap(c, x);
      c := c + [x];
      var i: nat := |c| - 1;
      while i > 0 && Comparator(c[Parent(i)], c[i])
        invariant i < |c| && SiftUp(c, i) == PushHeap(old(c), x)
      {
        c := Swap(c, i, Parent(i));
        i := Parent(i);
      }
    }

    /** The child of `i` that is due first. */
    method FirstChild(i: nat) returns (child: nat)
      requires 2 * i + 1 < |c|
      ensures child == SmallChild(c, i)
    {
      child := 2 * i + 1;
      if child + 1 < |c| && Comparator(c[child], c[child + 1]) {
        child := child + 1;
      }
    }

    /** The first entry sinks to its place. */
    method SinkTop()
      requires c != []
      modifies this
      ensures c == SiftDown(old(c), 0)
    {
      var i: nat := 0;
      while 2 * i + 1 < |c|
        invariant i < |c| && SiftDown(c, i) == SiftDown(old(c), 0)
        decreases |c| - i
      {
        var child := FirstChild(i);
        if !Comparator(c[i], c[child]) {
          return;
        }
        c := Swap(c, i, child);
        i := child;
      }
    }

    method Pop()
      requires Valid() && c != []
      modifies this
      ensures Valid() && c == PopHeap(old(c))
    {
      PopKeepsHeap(c);
      var last := |c| - 1;
      if last == 0 {
        c := [];
        return;
      }
      c := c[..last][0 := c[last]];
      SinkTop();
    }
  }

  // ----- every sequence of pushes and pops -----

  datatype Op = Push(job: TimerJob) | Pop

  /** No prefix of `ops` pops more than there is, starting from `n` entries. */
  predicate NeverPopsEmpty(ops: seq<Op>, n: nat) {
    ops == []
    || (ops[0].Push? && NeverPopsEmpty(ops[1..], n + 1))
    || (ops[0].Pop? && n > 0 && NeverPopsEmpty(ops[1..], n - 1))
  }

  /** The queue after `ops`. */
  function FinalHeap(a: seq<TimerJob>, ops: seq<Op>): seq<TimerJob>
    requires NeverPopsEmpty(ops, |a|)
    decreases |ops|
  {
    if ops == [] then a
    else FinalHeap(if ops[0].Push? then PushHeap(a, ops[0].job) else PopHeap(a), ops[1..])
  }

  /** The jobs popped by `ops`, in order. */
  function Popped(a: seq<TimerJob>, ops: seq<Op>): seq<TimerJob>
    requires NeverPopsEmpty(ops, |a|)
    decreases |ops|
  {
    if ops == [] then []
    else if ops[0].Push? then Popped(PushHeap(a, ops[0].job), ops[1..])
    else [a[0]] + Popped(PopHeap(a), ops[1..])
  }

  /** `out` are jobs a plain multiset may give out under `ops`, a minimum-tick job at each pop,
      ending in `m'`. */
  predicate MultisetRun(m: multiset<TimerJob>, ops: seq<Op>, out: seq<TimerJob>, m': multiset<TimerJob>)
    decreases |ops|
  {
    if ops == [] then out == [] && m' == m
    else if ops[0].Push? then MultisetRun(m + multiset{ops[0].job}, ops[1..], out, m')
    else
      && out != [] && out[0] in m && (forall x :: x in m ==> out[0].tick <= x.tick)
      && MultisetRun(m - multiset{out[0]}, ops[1..], out[1..], m')
  }

  /** The jobs pushed by `ops`. */
  function Pushed(ops: seq<Op>): multiset<TimerJob> {
    if ops == [] then multiset{}
    else (if ops[0].Push? then multiset{ops[0].job} else multiset{}) + Pushed(ops[1..])
  }

  lemma PopBalances(
      top: TimerJob, popped: seq<TimerJob>, left: multiset<TimerJob>, m: multiset<TimerJob>, m': multiset<TimerJob>,
      pushed: multiset<TimerJob>)
    requires m' + multiset{top} == m && multiset(popped) + left == m' + pushed
    ensures multiset([top] + popped) + left == m + pushed
  {
    assert multiset([top] + popped) == multiset{top} + multiset(popped);
    calc {
      multiset([top] + popped) + left;
      multiset{top} + (multiset(popped) + left);
      multiset{top} + (m' + pushed);
      m + pushed;
    }
  }

  lemma PopTakesTop(a: seq<TimerJob>)
    requires a != []
    ensures multiset(PopHeap(a)) + multiset{a[0]} == multiset(a)
  {
    assert a[0] in multiset(a);
  }

  lemma PopsConserveFirst(a: seq<TimerJob>, ops: seq<Op>)
    requires ops != [] && ops[0].Pop? && NeverPopsEmpty(ops, |a|)
    requires multiset(Popped(PopHeap(a), ops[1..])) + multiset(FinalHeap(PopHeap(a), ops[1..])) ==
             multiset(PopHeap(a)) + Pushed(ops[1..])
    ensures multiset(Popped(a, ops)) + multiset(FinalHeap(a, ops)) == multiset(a) + Pushed(ops[1..])
  {
    PopTakesTop(a);
    PopBalances(a[0], Popped(PopHeap(a), ops[1..]), multiset(FinalHeap(PopHeap(a), ops[1..])), multiset(a),
                multiset(PopHeap(a)), Pushed(ops[1..]));
  }

  lemma PopPushesNone(ops: seq<Op>)
    requires ops != [] && ops[0].Pop?
    ensures Pushed(ops) == Pushed(ops[1..])
  {
  }

  lemma PushConserves(a: seq<TimerJob>, ops: seq<Op>)
    requires ops != [] && ops[0].Push? && NeverPopsEmpty(ops, |a|)
    requires var b := PushHeap(a, ops[0].job);
      multiset(Popped(b, ops[1..])) + multiset(FinalHeap(b, ops[1..])) == multiset(b) + Pushed(ops[1..])
    ensures multiset(Popped(a, ops)) + multiset(FinalHeap(a, ops)) == multiset(a) + Pushed(ops)
  {
  }

  /** What was in the queue and what was pushed is what was popped and what is left. */
  lemma {:induction false} PopsConserve(a: seq<TimerJob>, ops: seq<Op>)
    requires NeverPopsEmpty(ops, |a|)
    ensures multiset(Popped(a, ops)) + multiset(FinalHeap(a, ops)) == multiset(a) + Pushed(ops)
    decreases |ops|
  {
    if ops != [] {
      if ops[0].Push? {
        PopsConserve(PushHeap(a, ops[0].job), ops[1..]);
        PushConserves(a, ops);
      } else {
        PopsConserve(PopHeap(a), ops[1..]);
        PopsConserveFirst(a, ops);
        PopPushesNone(ops);
      }
    }
  }

  /** Every sequence of pushes and pops on the heap agrees with a multiset that gives out a
      minimum-tick job each time. */
  lemma {:induction false} HeapRefinesMultiset(a: seq<TimerJob>, ops: seq<Op>)
    requires Heap(a) && NeverPopsEmpty(ops, |a|)
    ensures MultisetRun(multiset(a), ops, Popped(a, ops), multiset(FinalHeap(a, ops)))
    ensures Heap(FinalHeap(a, ops))
    decreases |ops|
  {
    if ops != [] {
      if ops[0].Push? {
        PushKeepsHeap(a, ops[0].job);
        HeapRefinesMultiset(PushHeap(a, ops[0].job), ops[1..]);
      } else {
        TopIsMinimum(a);
        PopKeepsHeap(a);
        HeapRefinesMultiset(PopHeap(a), ops[1..]);
        assert Popped(a, ops)[1..] == Popped(PopHeap(a), ops[1..]);
      }
    }
  }
}
