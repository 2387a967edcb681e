/** The timer of one thread: pushes and drains, with tasks that push while the drain runs.

    The source leaves the push a TODO and comments out the two lines that run and pop a job. This
    is the loop those lines intend: run the top job, then pop, until the top is not yet due; a job
    is pushed at the thread's tick plus `after`. */
module Timer {
  import opened TimerHeap

  /** One call of PushTimerJob. */
  datatype PushCall = PushCall(id: nat, after: nat)

  /** `tick` is LTickCount. `ran`, `ranAt` and `pushed` are history: the jobs executed, the tick at
      which each ran, and all jobs ever pushed. */
  datatype State = State(
    queue: seq<TimerJob>,
    tick: int,
    draining: bool,
    ran: seq<TimerJob>,
    ranAt: seq<int>,
    pushed: multiset<TimerJob>)

  datatype Step =
    | PushOutside(call: PushCall)
    | StartDrain(now: int)
    | RunTop(calls: seq<PushCall>)
    | EndDrain

  function JobFor(call: PushCall, tick: int): TimerJob {
    TimerJob(call.id, tick + call.after)
  }

  function JobsFor(calls: seq<PushCall>, tick: int): multiset<TimerJob> {
    if calls == [] then multiset{} else multiset{JobFor(calls[0], tick)} + JobsFor(calls[1..], tick)
  }

  /** The queue after a task made `calls`. */
  function PushAll(a: seq<TimerJob>, calls: seq<PushCall>, tick: int): (r: seq<TimerJob>)
    ensures |r| == |a| + |calls| && multiset(r) == multiset(a) + JobsFor(calls, tick)
    decreases |calls|
  {
    if calls == [] then a else PushAll(PushHeap(a, JobFor(calls[0], tick)), calls[1..], tick)
  }

  function Initial(now: int): State {
    State([], now, false, [], [], multiset{})
  }

  predicate Enabled(st: State, e: Step) {
    match e
    case PushOutside(_) => !st.draining
    case StartDrain(now) => !st.draining && st.tick <= now
    case RunTop(_) => st.draining && st.queue != [] && st.queue[0].tick <= st.tick
    case EndDrain => st.draining && (st.queue != [] ==> st.tick < st.queue[0].tick)
  }

  function Apply(st: State, e: Step): State
    requires Enabled(st, e)
  {
    match e
    case PushOutside(call) =>
      st.(queue := PushHeap(st.queue, JobFor(call, st.tick)),
          pushed := st.pushed + multiset{JobFor(call, st.tick)})
    case StartDrain(now) => st.(tick := now, draining := true)
    case RunTop(calls) =>
      st.(queue := PopHeap(PushAll(st.queue, calls, st.tick)),
          ran := st.ran + [st.queue[0]],
          ranAt := st.ranAt + [st.tick],
          pushed := st.pushed + JobsFor(calls, st.tick))
    case EndDrain => st.(draining := false)
  }

  ghost predicate Run(st: State, es: seq<Step>, st': State)
    decreases |es|
  {
    if es == [] then st' == st else Enabled(st, es[0]) && Run(Apply(st, es[0]), es[1..], st')
  }

  // ----- the job that ran is the job that is popped -----

  lemma {:induction false} PushAllKeepsTop(a: seq<TimerJob>, calls: seq<PushCall>, tick: int)
    requires Heap(a) && a != [] && a[0].tick <= tick
    ensures Heap(PushAll(a, calls, tick)) && PushAll(a, calls, tick)[0] == a[0]
    decreases |calls|
  {
    if calls != [] {
      var x := JobFor(calls[0], tick);
      PushKeepsHeap(a, x);
      PushKeepsTop(a, x);
      PushAllKeepsTop(PushHeap(a, x), calls[1..], tick);
    }
  }

  /** Whatever the running task pushes, the job popped after it is exactly the job that ran. */
  lemma RightJobPopped(st: State, calls: seq<PushCall>)
    requires Heap(st.queue) && Enabled(st, RunTop(calls))
    ensures var st' := Apply(st, RunTop(calls));
      && Heap(st'.queue)
      && multiset(st'.queue) == multiset(st.queue) + JobsFor(calls, st.tick) - multiset{st.queue[0]}
      && multiset(st'.queue) + multiset{st'.ran[|st.ran|]} == multiset(st.queue) + JobsFor(calls, st.tick)
  {
    PushAllKeepsTop(st.queue, calls, st.tick);
    PopKeepsHeap(PushAll(st.queue, calls, st.tick));
    assert st.queue[0] in multiset(st.queue);
  }

  // ----- whole runs -----

  predicate NonDecreasing(ticks: seq<int>) {
    forall i, j :: 0 <= i < j < |ticks| ==> ticks[i] <= ticks[j]
  }

  function Ticks(jobs: seq<TimerJob>): (r: seq<int>)
    ensures |r| == |jobs| && forall i :: 0 <= i < |r| ==> r[i] == jobs[i].tick
  {
    seq(|jobs|, i requires 0 <= i < |jobs| => jobs[i].tick)
  }

  /** Executed ticks ascend, no job ran early, and nothing queued precedes what already ran. */
  ghost predicate Ordered(st: State) {
    && NonDecreasing(Ticks(st.ran)) && NonDecreasing(st.ranAt) && |st.ranAt| == |st.ran|
    && (forall i :: 0 <= i < |st.ran| ==> st.ran[i].tick <= st.ranAt[i] <= st.tick)
    && (forall i, x :: 0 <= i < |st.ran| && x in multiset(st.queue) ==> st.ran[i].tick <= x.tick)
  }

  ghost predicate Inv(st: State) {
    && Heap(st.queue) && Ordered(st)
    && multiset(st.queue) + multiset(st.ran) == st.pushed
  }

  lemma {:induction false} JobsForLate(calls: seq<PushCall>, tick: int)
    ensures forall x :: x in JobsFor(calls, tick) ==> tick <= x.tick
  {
    if calls != [] {
      JobsForLate(calls[1..], tick);
    }
  }

  lemma PushOutsideKeepsInv(st: State, call: PushCall)
    requires Inv(st) && Enabled(st, PushOutside(call))
    ensures Inv(Apply(st, PushOutside(call)))
  {
    PushKeepsHeap(st.queue, JobFor(call, st.tick));
  }

  lemma TicksAppend(ran: seq<TimerJob>, top: TimerJob)
    requires NonDecreasing(Ticks(ran)) && forall i :: 0 <= i < |ran| ==> ran[i].tick <= top.tick
    ensures NonDecreasing(Ticks(ran + [top]))
  {
    assert Ticks(ran + [top]) == Ticks(ran) + [top.tick];
  }

  /** Nothing left in the queue precedes the job that just ran, nor any job before it. */
  lemma RunTopPrecedes(st: State, calls: seq<PushCall>, x: TimerJob)
    requires Heap(st.queue) && Ordered(st) && Enabled(st, RunTop(calls))
    requires x in multiset(Apply(st, RunTop(calls)).queue)
    ensures st.queue[0].tick <= x.tick && forall i :: 0 <= i < |st.ran| ==> st.ran[i].tick <= x.tick
  {
    RightJobPopped(st, calls);
    TopIsMinimum(st.queue);
    JobsForLate(calls, st.tick);
    assert x in multiset(st.queue) || x in JobsFor(calls, st.tick);
  }

  lemma OrderedAppend(st: State, st': State, top: TimerJob)
    requires Ordered(st) && top.tick <= st.tick && st'.tick == st.tick
    requires st'.ran == st.ran + [top] && st'.ranAt == st.ranAt + [st.tick]
    requires forall i :: 0 <= i < |st.ran| ==> st.ran[i].tick <= top.tick
    requires forall i, x :: 0 <= i < |st'.ran| && x in multiset(st'.queue) ==> st'.ran[i].tick <= x.tick
    ensures Ordered(st')
  {
    TicksAppend(st.ran, top);
  }

  lemma RunTopOrdered(st: State, calls: seq<PushCall>)
    requires Heap(st.queue) && Ordered(st) && Enabled(st, RunTop(calls))
    ensures Ordered(Apply(st, RunTop(calls)))
  {
    var st' := Apply(st, RunTop(calls));
    forall i, x | 0 <= i < |st'.ran| && x in multiset(st'.queue)
      ensures st'.ran[i].tick <= x.tick
    {
      RunTopPrecedes(st, calls, x);
    }
    assert st.queue[0] in multiset(st.queue);
    OrderedAppend(st, st', st.queue[0]);
  }

  lemma RunTopKeepsInv(st: State, calls: seq<PushCall>)
    requires Inv(st) && Enabled(st, RunTop(calls))
    ensures Inv(Apply(st, RunTop(calls)))
  {
    RunTopOrdered(st, calls);
    RightJobPopped(st, calls);
  }

  lemma StepKeepsInv(st: State, e: Step)
    requires Inv(st) && Enabled(st, e)
    ensures Inv(Apply(st, e))
  {
    match e
    case PushOutside(call) => PushOutsideKeepsInv(st, call);
    case StartDrain(_) =>
    case RunTop(calls) => RunTopKeepsInv(st, calls);
    case EndDrain =>
  }

  lemma {:induction false} RunKeepsInv(st: State, es: seq<Step>, st': State)
    requires Inv(st) && Run(st, es, st')
    ensures Inv(st')
    decreases |es|
  {
    if es != [] {
      StepKeepsInv(st, es[0]);
      RunKeepsInv(Apply(st, es[0]), es[1..], st');
    }
  }

  /** The tick sampled last at each iteration along `es`. */
  function SampledAlong(es: seq<Step>, now: int): seq<int> {
    if es == [] then []
    else
      match es[0]
      case StartDrain(tick) => SampledAlong(es[1..], tick)
      case RunTop(_) => [now] + SampledAlong(es[1..], now)
      case _ => SampledAlong(es[1..], now)
  }

  lemma {:induction false} RanWhenSampled(st: State, es: seq<Step>, st': State)
    requires Run(st, es, st')
    ensures st'.ranAt == st.ranAt + SampledAlong(es, st.tick)
    decreases |es|
  {
    if es != [] {
      RanWhenSampled(Apply(st, es[0]), es[1..], st');
    }
  }

  /** Over any pushes and drains, with tasks pushing meanwhile, jobs run in the order of their
      ticks, and each at a sampled tick that is no earlier than its own. */
  lemma WholeRunOrder(now: int, es: seq<Step>, st: State)
    requires Run(Initial(now), es, st)
    ensures NonDecreasing(Ticks(st.ran))
    ensures |SampledAlong(es, now)| == |st.ran|
    ensures forall i :: 0 <= i < |st.ran| ==> st.ran[i].tick <= SampledAlong(es, now)[i]
  {
    RunKeepsInv(Initial(now), es, st);
    RanAtIs(now, es, st);
    RanInOrder(st);
  }

  lemma RanAtIs(now: int, es: seq<Step>, st: State)
    requires Run(Initial(now), es, st)
    ensures st.ranAt == SampledAlong(es, now)
  {
    RanWhenSampled(Initial(now), es, st);
  }

  lemma RanInOrder(st: State)
    requires Ordered(st)
    ensures NonDecreasing(Ticks(st.ran)) && |st.ranAt| == |st.ran|
    ensures forall i :: 0 <= i < |st.ran| ==> st.ran[i].tick <= st.ranAt[i]
  {
  }

  /** The jobs that `calls` ask for at tick `now`. */
  function Asked(calls: seq<PushCall>, now: int): multiset<TimerJob> {
    if calls == [] then multiset{}
    else multiset{TimerJob(calls[0].id, now + calls[0].after)} + Asked(calls[1..], now)
  }

  /** The jobs that all calls of PushTimerJob along `es` ask for, each at its call's `after` past the tick
      sampled last. */
  function AskedAlong(es: seq<Step>, now: int): multiset<TimerJob> {
    if es == [] then multiset{}
    else
      match es[0]
      case PushOutside(call) => multiset{TimerJob(call.id, now + call.after)} + AskedAlong(es[1..], now)
      case StartDrain(tick) => AskedAlong(es[1..], tick)
      case RunTop(calls) => Asked(calls, now) + AskedAlong(es[1..], now)
      case EndDrain => AskedAlong(es[1..], now)
  }

  lemma {:induction false} AskedIsPushed(calls: seq<PushCall>, now: int)
    ensures Asked(calls, now) == JobsFor(calls, now)
  {
    if calls != [] {
      AskedIsPushed(calls[1..], now);
    }
  }

  lemma {:induction false} AskedArePushed(st: State, es: seq<Step>, st': State)
    requires Run(st, es, st')
    ensures st'.pushed == st.pushed + AskedAlong(es, st.tick)
    decreases |es|
  {
    if es != [] {
      if es[0].RunTop? {
        AskedIsPushed(es[0].calls, st.tick);
      }
      AskedArePushed(Apply(st, es[0]), es[1..], st');
    }
  }

  /** No job is lost, run twice or moved in time: the jobs queued and the jobs executed are exactly those
      that the calls along the run asked for. */
  lemma JobsConserved(now: int, es: seq<Step>, st: State)
    requires Run(Initial(now), es, st)
    ensures multiset(st.queue) + multiset(st.ran) == AskedAlong(es, now)
  {
    RunKeepsInv(Initial(now), es, st);
    AskedArePushed(Initial(now), es, st);
  }

  /** A job that is pushed runs once its tick is sampled. */
  lemma PushedJobRuns(now: int, call: PushCall) returns (es: seq<Step>, st: State)
    ensures Run(Initial(now), es, st) && PushOutside(call) in es
    ensures st.ran == [TimerJob(call.id, now + call.after)] && st.queue == [] && !st.draining
  {
    var job := TimerJob(call.id, now + call.after);
    var a := Apply(Initial(now), PushOutside(call));
    assert a.queue == [job];
    var b := Apply(a, StartDrain(now + call.after));
    var c := Apply(b, RunTop([]));
    assert c.ran == [job] && c.queue == [];
    st := Apply(c, EndDrain);
    es := [PushOutside(call), StartDrain(now + call.after), RunTop([]), EndDrain];
    assert es[1..] == [StartDrain(now + call.after), RunTop([]), EndDrain];
    assert es[1..][1..] == [RunTop([]), EndDrain] && es[1..][1..][1..] == [EndDrain];
    assert Run(c, [EndDrain], st);
    assert Run(b, [RunTop([]), EndDrain], st);
    assert Run(a, [StartDrain(now + call.after), RunTop([]), EndDrain], st);
  }

  /** Stopping at the first job that is not due misses none. */
  lemma DrainComplete(now: int, es: seq<Step>, st: State)
    requires Run(Initial(now), es, st) && Enabled(st, EndDrain)
    ensures forall x :: x in multiset(st.queue) ==> st.tick < x.tick
  {
    RunKeepsInv(Initial(now), es, st);
    if st.queue != [] {
      TopIsMinimum(st.queue);
    }
  }
}
