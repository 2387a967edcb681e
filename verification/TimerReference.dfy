/** The reference that top() returns, after the running task has pushed: the loop uses it once more, to
    leave the owner's lock, before it pops. */
module TimerReference {
  import opened IoContexts
  import opened TimerHeap
  import opened Timer

  /** The queue's vector; `block` names the memory it occupies, which is never the same again after a
      reallocation. */
  datatype Vector = Vector(items: seq<TimerJob>, capacity: nat, block: nat)

  datatype Reference = Reference(block: nat, index: nat)

  /** What a reference denotes; None is a reference into memory that was given back. */
  function Denotes(v: Vector, r: Reference): Option<TimerJob> {
    if r.block == v.block && r.index < |v.items| then Some(v.items[r.index]) else None
  }

  /** The library's growth policy. */
  ghost predicate Grows(grow: nat -> nat) {
    forall n: nat :: n < grow(n)
  }

  function PushVector(v: Vector, x: TimerJob, grow: nat -> nat): Vector {
    if |v.items| < v.capacity then v.(items := PushHeap(v.items, x))
    else Vector(PushHeap(v.items, x), grow(v.capacity), v.block + 1)
  }

  function PushAllVector(v: Vector, calls: seq<PushCall>, tick: int, grow: nat -> nat): Vector
    decreases |calls|
  {
    if calls == [] then v else PushAllVector(PushVector(v, JobFor(calls[0], tick), grow), calls[1..], tick, grow)
  }

  /** The vector's entries are the queue's, and its memory moves exactly when the pushes exceed its
      capacity. */
  lemma {:induction false} MovesExactly(v: Vector, calls: seq<PushCall>, tick: int, grow: nat -> nat)
    requires |v.items| <= v.capacity && Grows(grow)
    ensures var v' := PushAllVector(v, calls, tick, grow);
      && v'.items == PushAll(v.items, calls, tick) && v'.block >= v.block
      && (v'.block == v.block <==> |v.items| + |calls| <= v.capacity)
    decreases |calls|
  {
    if calls != [] {
      MovesExactly(PushVector(v, JobFor(calls[0], tick), grow), calls[1..], tick, grow);
    }
  }

  /** After its task the reference still denotes the job that is running if and only if what the task
      pushed fits the capacity the vector had. */
  lemma TopReference(v: Vector, calls: seq<PushCall>, tick: int, grow: nat -> nat)
    requires |v.items| <= v.capacity && Grows(grow)
    requires Heap(v.items) && v.items != [] && v.items[0].tick <= tick
    ensures Denotes(PushAllVector(v, calls, tick, grow), Reference(v.block, 0)) == Some(v.items[0]) <==>
            |v.items| + |calls| <= v.capacity
  {
    MovesExactly(v, calls, tick, grow);
    PushAllKeepsTop(v.items, calls, tick);
  }
}
