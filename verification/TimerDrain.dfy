/** How long a drain runs, exactly what it executes, and DoTimerJob as a loop over the queue object. */
module TimerDrain {
  import opened TimerHeap
  import opened TimerQueue
  import opened Timer

  /** The jobs of `a` that are due at `tick`. */
  function DueJobs(a: seq<TimerJob>, tick: int): multiset<TimerJob> {
    if a == [] then multiset{}
    else (if a[0].tick <= tick then multiset{a[0]} else multiset{}) + DueJobs(a[1..], tick)
  }

  /** The pushed jobs that are due at once. */
  function ImmediateJobs(calls: seq<PushCall>, tick: int): multiset<TimerJob> {
    if calls == [] then multiset{}
    else
      (if calls[0].after == 0 then multiset{JobFor(calls[0], tick)} else multiset{})
      + ImmediateJobs(calls[1..], tick)
  }

  lemma {:induction false} DueJobsAt(a: seq<TimerJob>, tick: int, x: TimerJob)
    ensures DueJobs(a, tick)[x] == if x.tick <= tick then multiset(a)[x] else 0
  {
    if a != [] {
      assert a == [a[0]] + a[1..];
      DueJobsAt(a[1..], tick, x);
    }
  }

  lemma {:induction false} ImmediateJobsAt(calls: seq<PushCall>, tick: int, x: TimerJob)
    ensures ImmediateJobs(calls, tick)[x] == if x.tick <= tick then JobsFor(calls, tick)[x] else 0
  {
    if calls != [] {
      ImmediateJobsAt(calls[1..], tick, x);
    }
  }

  /** Due jobs balance when the queues do. */
  lemma {:induction false} DueBalance(a: seq<TimerJob>, b: seq<TimerJob>, top: TimerJob, calls: seq<PushCall>, tick: int)
    requires top.tick <= tick && multiset(b) + multiset{top} == multiset(a) + JobsFor(calls, tick)
    ensures DueJobs(b, tick) + multiset{top} == DueJobs(a, tick) + ImmediateJobs(calls, tick)
  {
    var l, r := DueJobs(b, tick) + multiset{top}, DueJobs(a, tick) + ImmediateJobs(calls, tick);
    forall x
      ensures l[x] == r[x]
    {
      DueJobsAt(a, tick, x);
      DueJobsAt(b, tick, x);
      ImmediateJobsAt(calls, tick, x);
      assert (multiset(b) + multiset{top})[x] == (multiset(a) + JobsFor(calls, tick))[x];
    }
  }

  /** One iteration trades the job that ran for the jobs its task made due at once. */
  lemma {:induction false} IterationDue(st: State, calls: seq<PushCall>)
    requires Heap(st.queue) && Enabled(st, RunTop(calls))
    ensures DueJobs(Apply(st, RunTop(calls)).queue, st.tick) + multiset{st.queue[0]} ==
            DueJobs(st.queue, st.tick) + ImmediateJobs(calls, st.tick)
  {
    RightJobPopped(st, calls);
    DueBalance(st.queue, Apply(st, RunTop(calls)).queue, st.queue[0], calls, st.tick);
  }

  /** If tasks push only with a positive `after`, the due jobs shrink by exactly one per iteration. */
  lemma {:induction false} NoneImmediate(calls: seq<PushCall>, tick: int)
    requires forall i :: 0 <= i < |calls| ==> calls[i].after >= 1
    ensures ImmediateJobs(calls, tick) == multiset{}
  {
    if calls != [] {
      NoneImmediate(calls[1..], tick);
    }
  }

  // ----- a whole drain -----

  /** The iterations of one drain, given what each task pushes. */
  function Iterations(tasks: seq<seq<PushCall>>): (es: seq<Step>)
    ensures |es| == |tasks|
  {
    if tasks == [] then [] else [RunTop(tasks[0])] + Iterations(tasks[1..])
  }

  function AllImmediate(tasks: seq<seq<PushCall>>, tick: int): multiset<TimerJob> {
    if tasks == [] then multiset{} else ImmediateJobs(tasks[0], tick) + AllImmediate(tasks[1..], tick)
  }

  lemma {:induction false} DrainGrows(st: State, tasks: seq<seq<PushCall>>, st': State)
    requires Heap(st.queue) && Run(st, Iterations(tasks), st')
    ensures st'.tick == st.tick && st'.draining == st.draining
    ensures st.ran <= st'.ran && |st'.ran| == |st.ran| + |tasks| && Heap(st'.queue)
    decreases |tasks|
  {
    if tasks != [] {
      RightJobPopped(st, tasks[0]);
      assert Iterations(tasks)[1..] == Iterations(tasks[1..]);
      DrainGrows(Apply(st, RunTop(tasks[0])), tasks[1..], st');
    }
  }

  /** The jobs a drain executed. */
  function Executed(st: State, st': State): multiset<TimerJob>
    requires st.ran <= st'.ran
  {
    multiset(st'.ran[|st.ran|..])
  }

  lemma ExecutedFirst(st: State, mid: State, st': State, top: TimerJob)
    requires mid.ran == st.ran + [top] && mid.ran <= st'.ran
    ensures st.ran <= st'.ran && Executed(st, st') == multiset{top} + Executed(mid, st')
  {
    assert st'.ran[|st.ran|..] == [top] + st'.ran[|mid.ran|..];
  }

  lemma ExecutedSize(st: State, st': State)
    requires st.ran <= st'.ran
    ensures |Executed(st, st')| == |st'.ran| - |st.ran|
  {
  }

  lemma Rebalance(
      top: multiset<TimerJob>, later: multiset<TimerJob>, due': multiset<TimerJob>, mid: multiset<TimerJob>,
      laterPushed: multiset<TimerJob>, due: multiset<TimerJob>, pushed: multiset<TimerJob>)
    requires later + due' == mid + laterPushed && mid + top == due + pushed
    ensures top + later + due' == due + (pushed + laterPushed)
  {
    calc {
      top + later + due';
      top + (later + due');
      top + (mid + laterPushed);
      (mid + top) + laterPushed;
      due + (pushed + laterPushed);
    }
  }

  /** What a drain has executed plus what is still due is what was due plus what tasks made due at
      once. */
  lemma {:induction false} DrainBalance(st: State, tasks: seq<seq<PushCall>>, st': State)
    requires Heap(st.queue) && Run(st, Iterations(tasks), st') && st.ran <= st'.ran
    ensures Executed(st, st') + DueJobs(st'.queue, st.tick) ==
            DueJobs(st.queue, st.tick) + AllImmediate(tasks, st.tick)
    decreases |tasks|
  {
    if tasks == [] {
      assert st'.ran[|st.ran|..] == [];
    } else {
      var mid := Apply(st, RunTop(tasks[0]));
      RightJobPopped(st, tasks[0]);
      assert Iterations(tasks)[1..] == Iterations(tasks[1..]);
      DrainGrows(mid, tasks[1..], st');
      IterationDue(st, tasks[0]);
      ExecutedFirst(st, mid, st', st.queue[0]);
      DrainBalance(mid, tasks[1..], st');
      Rebalance(multiset{st.queue[0]}, Executed(mid, st'), DueJobs(st'.queue, st.tick), DueJobs(mid.queue, st.tick),
                AllImmediate(tasks[1..], st.tick), DueJobs(st.queue, st.tick), ImmediateJobs(tasks[0], st.tick));
    }
  }

  lemma {:induction false} NoneDue(a: seq<TimerJob>, tick: int)
    requires Heap(a) && (a != [] ==> tick < a[0].tick)
    ensures DueJobs(a, tick) == multiset{}
  {
    if a != [] {
      TopIsMinimum(a);
    }
    forall x
      ensures DueJobs(a, tick)[x] == 0
    {
      DueJobsAt(a, tick, x);
    }
  }

  /** A job that is due is among the due jobs. */
  lemma {:induction false} TopDue(a: seq<TimerJob>, tick: int)
    requires a != [] && a[0].tick <= tick
    ensures |DueJobs(a, tick)| > 0
  {
    DueJobsAt(a, tick, a[0]);
    assert a[0] in multiset(a);
    assert a[0] in DueJobs(a, tick);
  }

  /** None is due exactly when the loop's test fails. */
  lemma {:induction false} DueExactly(a: seq<TimerJob>, tick: int)
    requires Heap(a)
    ensures |DueJobs(a, tick)| == 0 <==> (a != [] ==> tick < a[0].tick)
  {
    if a != [] && a[0].tick <= tick {
      TopDue(a, tick);
    } else {
      NoneDue(a, tick);
    }
  }

  lemma SizesBalance(a: multiset<TimerJob>, b: multiset<TimerJob>, c: multiset<TimerJob>, d: multiset<TimerJob>)
    requires a + b == c + d
    ensures |a| + |b| == |c| + |d|
  {
    assert |a + b| == |c + d|;
  }

  /** A drain may stop after the iterations `tasks` if and only if they are as many as the jobs due at
      its start and the jobs made due at once. */
  lemma {:induction false} DrainEndsExactly(st: State, tasks: seq<seq<PushCall>>, st': State)
    requires st.draining && Heap(st.queue) && Run(st, Iterations(tasks), st')
    ensures Enabled(st', EndDrain) <==> |tasks| == |DueJobs(st.queue, st.tick)| + |AllImmediate(tasks, st.tick)|
  {
    DrainGrows(st, tasks, st');
    DrainBalance(st, tasks, st');
    ExecutedSize(st, st');
    SizesBalance(Executed(st, st'), DueJobs(st'.queue, st.tick), DueJobs(st.queue, st.tick), AllImmediate(tasks, st.tick));
    DueExactly(st'.queue, st.tick);
  }

  /** A finished drain executed exactly the jobs due when it began and those made due at once. */
  lemma {:induction false} DrainExecutesDue(st: State, tasks: seq<seq<PushCall>>, st': State)
    requires Heap(st.queue) && Run(st, Iterations(tasks), st') && Enabled(st', EndDrain)
    ensures st.ran <= st'.ran && |st'.ran| == |st.ran| + |tasks| && DueJobs(st'.queue, st.tick) == multiset{}
    ensures Executed(st, st') == DueJobs(st.queue, st.tick) + AllImmediate(tasks, st.tick)
  {
    DrainGrows(st, tasks, st');
    DrainBalance(st, tasks, st');
    NoneDue(st'.queue, st.tick);
    assert Executed(st, st') == Executed(st, st') + DueJobs(st'.queue, st.tick);
  }

  /** A task that pushes a job with `after` zero leaves the next iteration with a due job. */
  lemma {:induction false} ImmediateStaysDue(st: State, call: PushCall)
    requires Heap(st.queue) && Enabled(st, RunTop([call])) && call.after == 0
    ensures var st' := Apply(st, RunTop([call])); Heap(st'.queue) && Enabled(st', RunTop([]))
  {
    var st', x := Apply(st, RunTop([call])), JobFor(call, st.tick);
    RightJobPopped(st, [call]);
    assert JobsFor([call], st.tick)[x] >= 1;
    var m := multiset(st.queue);
    assert m[st.queue[0]] >= 1;
    assert (m + JobsFor([call], st.tick) - multiset{st.queue[0]})[x] >= 1;
    assert x in multiset(st'.queue);
    TopIsMinimum(st'.queue);
  }

  /** With `after` zero the loop need not end: for every n there is a drain of n iterations whose
      next job is still due. */
  lemma {:induction false} ImmediatePushesSpin(st: State, n: nat) returns (tasks: seq<seq<PushCall>>, st': State)
    requires Heap(st.queue) && Enabled(st, RunTop([]))
    ensures |tasks| == n && Run(st, Iterations(tasks), st') && Enabled(st', RunTop([]))
    decreases n
  {
    if n == 0 {
      tasks, st' := [], st;
    } else {
      var call := PushCall(0, 0);
      ImmediateStaysDue(st, call);
      var rest;
      rest, st' := ImmediatePushesSpin(Apply(st, RunTop([call])), n - 1);
      tasks := [[call]] + rest;
      assert Iterations(tasks)[1..] == Iterations(rest);
    }
  }

  lemma {:induction false} RunExtend(st: State, es: seq<Step>, st': State, e: Step)
    requires Run(st, es, st') && Enabled(st', e)
    ensures Run(st, es + [e], Apply(st', e))
    decreases |es|
  {
    if es == [] {
      assert es + [e] == [e];
    } else {
      RunExtend(Apply(st, es[0]), es[1..], st', e);
      assert (es + [e])[1..] == es[1..] + [e];
    }
  }

  // ----- when the loop ends -----

  /** What the n-th task of a drain pushes. */
  type Tasks = nat -> seq<PushCall>

  /** What the first `k` tasks push. */
  function Script(task: Tasks, k: nat): (r: seq<seq<PushCall>>)
    ensures |r| == k && forall i :: 0 <= i < k ==> r[i] == task(i)
  {
    seq(k, i requires 0 <= i < k => task(i))
  }

  /** The loop stops after `k` iterations. */
  ghost predicate StopsAfter(st: State, task: Tasks, k: nat, st': State) {
    Run(st, Iterations(Script(task, k)), st') && Enabled(st', EndDrain)
  }

  ghost predicate Terminates(st: State, task: Tasks) {
    exists k: nat, st' :: StopsAfter(st, task, k, st')
  }

  /** `k` is as many as the jobs due at the start and the jobs that the first `k` tasks make due at once. */
  ghost predicate CatchesUpAt(st: State, task: Tasks, k: nat) {
    k == |DueJobs(st.queue, st.tick)| + |AllImmediate(Script(task, k), st.tick)|
  }

  lemma {:induction false} GoOn(st: State, tasks: seq<seq<PushCall>>, mid: State, j: nat)
    requires j < |tasks| && Run(st, Iterations(tasks[..j]), mid) && Enabled(mid, RunTop(tasks[j]))
    ensures Run(st, Iterations(tasks[..j + 1]), Apply(mid, RunTop(tasks[j])))
  {
    IterationsNext(tasks, j);
    RunExtend(st, Iterations(tasks[..j]), mid, RunTop(tasks[j]));
  }

  lemma {:induction false} IterationsNext(tasks: seq<seq<PushCall>>, j: nat)
    requires j < |tasks|
    ensures Iterations(tasks[..j + 1]) == Iterations(tasks[..j]) + [RunTop(tasks[j])]
  {
    IterationsAppend(tasks[..j], tasks[j]);
    assert tasks[..j + 1] == tasks[..j] + [tasks[j]];
  }

  lemma {:induction false} IterationsAppend(tasks: seq<seq<PushCall>>, calls: seq<PushCall>)
    ensures Iterations(tasks + [calls]) == Iterations(tasks) + [RunTop(calls)]
  {
    if tasks == [] {
      assert tasks + [calls] == [calls];
    } else {
      assert (tasks + [calls])[1..] == tasks[1..] + [calls];
      IterationsAppend(tasks[1..], calls);
    }
  }

  /** A drain is where it may stop, or goes on. */
  lemma {:induction false} StopsOrGoesOn(st: State, tasks: seq<seq<PushCall>>, mid: State, calls: seq<PushCall>)
    requires st.draining && Heap(st.queue) && Run(st, Iterations(tasks), mid)
    ensures Enabled(mid, EndDrain) || Enabled(mid, RunTop(calls))
  {
    DrainGrows(st, tasks, mid);
  }

  /** Given what its tasks push, a drain runs through all of them or stops earlier. */
  lemma {:induction false} RunsOrStops(st: State, tasks: seq<seq<PushCall>>, k: nat) returns (j: nat, st': State)
    requires st.draining && Heap(st.queue) && k <= |tasks|
    ensures j <= k && Run(st, Iterations(tasks[..j]), st') && (j == k || Enabled(st', EndDrain))
    decreases k
  {
    if k == 0 {
      j, st' := 0, st;
      assert tasks[..0] == [];
    } else {
      j, st' := RunsOrStops(st, tasks, k - 1);
      if !Enabled(st', EndDrain) {
        StopsOrGoesOn(st, tasks[..j], st', tasks[j]);
        GoOn(st, tasks, st', j);
        j, st' := k, Apply(st', RunTop(tasks[j]));
      }
    }
  }

  /** The loop ends if and only if some number of iterations is as many as the jobs due at its start and
      the jobs those iterations make due at once. */
  lemma {:induction false} TerminatesExactly(st: State, task: Tasks)
    requires st.draining && Heap(st.queue)
    ensures Terminates(st, task) <==> exists k: nat :: CatchesUpAt(st, task, k)
  {
    if Terminates(st, task) {
      var k: nat, st' :| StopsAfter(st, task, k, st');
      DrainEndsExactly(st, Script(task, k), st');
      assert CatchesUpAt(st, task, k);
    }
    if k: nat :| CatchesUpAt(st, task, k) {
      CaughtUpStops(st, task, k);
    }
  }

  lemma {:induction false} CaughtUpStops(st: State, task: Tasks, k: nat)
    requires st.draining && Heap(st.queue) && CatchesUpAt(st, task, k)
    ensures Terminates(st, task)
  {
    var j, st' := RunsOrStops(st, Script(task, k), k);
    assert Script(task, k)[..j] == Script(task, j);
    if j == k {
      DrainEndsExactly(st, Script(task, k), st');
    }
    assert StopsAfter(st, task, j, st');
  }

  predicate NeverImmediate(calls: seq<PushCall>) {
    forall i :: 0 <= i < |calls| ==> calls[i].after >= 1
  }

  /** If tasks push only with a positive `after`, the due jobs drop by exactly one per iteration. */
  lemma {:induction false} OneFewerDue(st: State, calls: seq<PushCall>)
    requires Heap(st.queue) && Enabled(st, RunTop(calls)) && NeverImmediate(calls)
    ensures |DueJobs(Apply(st, RunTop(calls)).queue, st.tick)| == |DueJobs(st.queue, st.tick)| - 1
  {
    IterationDue(st, calls);
    NoneImmediate(calls, st.tick);
    SizesBalance(DueJobs(Apply(st, RunTop(calls)).queue, st.tick), multiset{st.queue[0]},
                 DueJobs(st.queue, st.tick), multiset{});
  }

  lemma {:induction false} DueJobRuns(st: State, calls: seq<PushCall>)
    requires st.draining && Heap(st.queue) && |DueJobs(st.queue, st.tick)| > 0 && NeverImmediate(calls)
    ensures Enabled(st, RunTop(calls))
    ensures var st' := Apply(st, RunTop(calls));
      && st'.draining && st'.tick == st.tick && Heap(st'.queue)
      && |DueJobs(st'.queue, st'.tick)| == |DueJobs(st.queue, st.tick)| - 1
  {
    DueExactly(st.queue, st.tick);
    OneFewerDue(st, calls);
    RightJobPopped(st, calls);
  }

  /** As many iterations are possible as there are due jobs. */
  lemma {:induction false} DueJobsRun(st: State, tasks: seq<seq<PushCall>>) returns (st': State)
    requires st.draining && Heap(st.queue) && |tasks| <= |DueJobs(st.queue, st.tick)|
    requires forall i :: 0 <= i < |tasks| ==> NeverImmediate(tasks[i])
    ensures Run(st, Iterations(tasks), st')
    decreases |tasks|
  {
    st' := st;
    if tasks != [] {
      DueJobRuns(st, tasks[0]);
      st' := DueJobsRun(Apply(st, RunTop(tasks[0])), tasks[1..]);
      assert Iterations(tasks)[1..] == Iterations(tasks[1..]);
    }
  }

  lemma {:induction false} AllNoneImmediate(tasks: seq<seq<PushCall>>, tick: int)
    requires forall i :: 0 <= i < |tasks| ==> NeverImmediate(tasks[i])
    ensures AllImmediate(tasks, tick) == multiset{}
  {
    if tasks != [] {
      NoneImmediate(tasks[0], tick);
      AllNoneImmediate(tasks[1..], tick);
    }
  }

  /** So the loop ends, after exactly as many iterations as there were due jobs. */
  lemma {:induction false} NeverImmediateEnds(st: State, task: Tasks) returns (st': State)
    requires st.draining && Heap(st.queue) && forall n: nat :: NeverImmediate(task(n))
    ensures StopsAfter(st, task, |DueJobs(st.queue, st.tick)|, st')
  {
    var tasks := Script(task, |DueJobs(st.queue, st.tick)|);
    st' := DueJobsRun(st, tasks);
    AllNoneImmediate(tasks, st.tick);
    DrainEndsExactly(st, tasks, st');
  }

  predicate PushesImmediate(calls: seq<PushCall>) {
    exists i :: 0 <= i < |calls| && calls[i].after == 0
  }

  lemma {:induction false} ImmediateCounts(calls: seq<PushCall>, tick: int)
    requires PushesImmediate(calls)
    ensures |ImmediateJobs(calls, tick)| >= 1
  {
    if calls[0].after != 0 {
      var i :| 0 <= i < |calls| && calls[i].after == 0;
      assert calls[1..][i - 1].after == 0;
      ImmediateCounts(calls[1..], tick);
    }
  }

  lemma {:induction false} AllImmediateCounts(tasks: seq<seq<PushCall>>, tick: int)
    requires forall i :: 0 <= i < |tasks| ==> PushesImmediate(tasks[i])
    ensures |AllImmediate(tasks, tick)| >= |tasks|
  {
    if tasks != [] {
      ImmediateCounts(tasks[0], tick);
      AllImmediateCounts(tasks[1..], tick);
    }
  }

  /** If every task pushes with `after` zero, the loop ends only if nothing was due in the first place. */
  lemma {:induction false} SpinsForever(st: State, task: Tasks)
    requires st.draining && Heap(st.queue) && forall n: nat :: PushesImmediate(task(n))
    ensures Terminates(st, task) <==> DueJobs(st.queue, st.tick) == multiset{}
  {
    TerminatesExactly(st, task);
    if k: nat :| CatchesUpAt(st, task, k) {
      AllImmediateCounts(Script(task, k), st.tick);
    }
    if DueJobs(st.queue, st.tick) == multiset{} {
      assert Script(task, 0) == [];
      assert CatchesUpAt(st, task, 0);
    }
  }

  // ----- DoTimerJob -----

  ghost predicate Iterated(a: State, calls: seq<PushCall>, b: State) {
    Enabled(a, RunTop(calls)) && b == Apply(a, RunTop(calls))
  }

  /** `states` are the states a drain goes through, from the first to the one in which it stops. */
  ghost predicate Path(states: seq<State>, task: Tasks) {
    && |states| > 0 && Enabled(states[|states| - 1], EndDrain)
    && forall i: nat :: i < |states| - 1 ==> Iterated(states[i], task(i), states[i + 1])
  }

  /** `states` are the states from `st` on in which `tasks` run. */
  ghost predicate Through(states: seq<State>, tasks: seq<seq<PushCall>>) {
    |states| == |tasks| + 1 && forall i: nat :: i < |tasks| ==> Iterated(states[i], tasks[i], states[i + 1])
  }

  lemma {:induction false} ThroughOneMore(st: State, rest: seq<State>, tasks: seq<seq<PushCall>>)
    requires tasks != [] && Through(rest, tasks[1..]) && Iterated(st, tasks[0], rest[0])
    ensures Through([st] + rest, tasks)
  {
    var states := [st] + rest;
    forall i: nat | i < |tasks|
      ensures Iterated(states[i], tasks[i], states[i + 1])
    {
      assert i > 0 ==> tasks[i] == tasks[1..][i - 1] && Iterated(rest[i - 1], tasks[1..][i - 1], rest[i]);
    }
  }

  lemma {:induction false} FirstIteration(st: State, tasks: seq<seq<PushCall>>, st': State)
    requires tasks != [] && Run(st, Iterations(tasks), st')
    ensures Enabled(st, RunTop(tasks[0]))
    ensures Run(Apply(st, RunTop(tasks[0])), Iterations(tasks[1..]), st')
  {
    assert Iterations(tasks)[1..] == Iterations(tasks[1..]);
  }

  lemma {:induction false} Unroll(st: State, tasks: seq<seq<PushCall>>, st': State) returns (states: seq<State>)
    requires Run(st, Iterations(tasks), st')
    ensures Through(states, tasks) && states[0] == st && states[|tasks|] == st'
    decreases |tasks|
  {
    if tasks == [] {
      states := [st];
    } else {
      FirstIteration(st, tasks, st');
      var rest := Unroll(Apply(st, RunTop(tasks[0])), tasks[1..], st');
      ThroughOneMore(st, rest, tasks);
      states := [st] + rest;
    }
  }

  lemma {:induction false} StopsOnPath(st: State, task: Tasks, k: nat, st': State) returns (states: seq<State>)
    requires StopsAfter(st, task, k, st')
    ensures Path(states, task) && |states| == k + 1 && states[0] == st && states[k] == st'
  {
    states := Unroll(st, Script(task, k), st');
    forall i: nat | i < k
      ensures Iterated(states[i], task(i), states[i + 1])
    {
      assert Script(task, k)[i] == task(i);
    }
  }

  lemma PathGoesOn(states: seq<State>, task: Tasks, n: nat)
    requires Path(states, task) && n < |states| && Enabled(states[n], RunTop([]))
    ensures n + 1 < |states| && Iterated(states[n], task(n), states[n + 1])
  {
  }

  lemma PathOver(states: seq<State>, task: Tasks, n: nat)
    requires Path(states, task) && n < |states| && Enabled(states[n], EndDrain)
    ensures n == |states| - 1
  {
    assert n < |states| - 1 ==> Iterated(states[n], task(n), states[n + 1]);
  }

  /** What a drain of `n` iterations achieves. */
  ghost predicate Outcome(st: State, task: Tasks, n: nat, st': State) {
    && st'.tick == st.tick && st'.draining && DueJobs(st'.queue, st.tick) == multiset{}
    && st.ran <= st'.ran && |st'.ran| == |st.ran| + n
    && Executed(st, st') == DueJobs(st.queue, st.tick) + AllImmediate(Script(task, n), st.tick)
  }

  lemma {:induction false} Outcomes(st: State, task: Tasks) returns (n: nat, states: seq<State>)
    requires st.draining && Heap(st.queue) && Terminates(st, task)
    ensures Path(states, task) && |states| == n + 1 && states[0] == st && Outcome(st, task, n, states[n])
  {
    var k: nat, st' :| StopsAfter(st, task, k, st');
    n := k;
    states := StopsOnPath(st, task, k, st');
    DrainGrows(st, Script(task, n), st');
    DrainExecutesDue(st, Script(task, n), st');
  }

  /** `queue` is mTimerJobQueue and `tick` is LTickCount, both of one thread. `trace` is the run that
      led here from the start at tick `start`. */
  class ThreadTimer {
    const queue: TimerJobQueue
    var tick: int
    ghost const start: int
    ghost var trace: seq<Step>
    ghost var ran: seq<TimerJob>
    ghost var ranAt: seq<int>
    ghost var pushed: multiset<TimerJob>

    ghost function View(draining: bool): State
      reads this, queue
    {
      State(queue.c, tick, draining, ran, ranAt, pushed)
    }

    ghost predicate Reached(draining: bool)
      reads this, queue
    {
      queue.Valid() && Run(Initial(start), trace, View(draining))
    }

    constructor (now: int)
      ensures Reached(false) && fresh(queue) && View(false) == Initial(now)
    {
      queue := new TimerJobQueue();
      tick, start := now, now;
      trace, ran, ranAt, pushed := [], [], [], multiset{};
    }

    /** A job is pushed at the tick last sampled plus `after`. */
    method PushTimerJob(call: PushCall)
      requires Reached(false)
      modifies this`pushed, this`trace, queue
      ensures Reached(false) && trace == old(trace) + [PushOutside(call)]
      ensures View(false) == Apply(old(View(false)), PushOutside(call))
      ensures multiset(queue.c) == old(multiset(queue.c)) + multiset{TimerJob(call.id, tick + call.after)}
    {
      RunExtend(Initial(start), trace, View(false), PushOutside(call));
      queue.Push(JobFor(call, tick));
      pushed := pushed + multiset{JobFor(call, tick)};
      trace := trace + [PushOutside(call)];
    }

    /** A running task calls PushTimerJob; the loop has not popped its job yet. */
    method RunTask(calls: seq<PushCall>)
      requires queue.Valid()
      modifies queue
      ensures queue.Valid() && queue.c == PushAll(old(queue.c), calls, tick)
    {
      for i := 0 to |calls|
        invariant queue.Valid() && PushAll(queue.c, calls[i..], tick) == PushAll(old(queue.c), calls, tick)
      {
        assert calls[i..][1..] == calls[i + 1..];
        queue.Push(JobFor(calls[i], tick));
      }
    }

    /** One iteration: runs the task of the top job, which may push, and then pops. */
    method Iterate(calls: seq<PushCall>)
      requires Reached(true) && Enabled(View(true), RunTop(calls))
      modifies this`trace, this`ran, this`ranAt, this`pushed, queue
      ensures Reached(true) && trace == old(trace) + [RunTop(calls)]
      ensures View(true) == Apply(old(View(true)), RunTop(calls))
    {
      RunExtend(Initial(start), trace, View(true), RunTop(calls));
      ghost var job := queue.c[0];
      RunTask(calls);
      queue.Pop();
      ran, ranAt, pushed := ran + [job], ranAt + [tick], pushed + JobsFor(calls, tick);
      trace := trace + [RunTop(calls)];
    }

    ghost function Sampled(now: int): State
      reads this, queue
    {
      View(false).(tick := now, draining := true)
    }

    method SampleClock(now: int)
      requires Reached(false) && tick <= now
      modifies this`tick, this`trace
      ensures Reached(true) && View(true) == old(Sampled(now)) && trace == old(trace) + [StartDrain(now)]
    {
      RunExtend(Initial(start), trace, View(false), StartDrain(now));
      tick, trace := now, trace + [StartDrain(now)];
    }

    /** The two tests of the loop. */
    method TopIsDue() returns (due: bool)
      requires Reached(true)
      ensures due <==> Enabled(View(true), RunTop([]))
      ensures !due <==> Enabled(View(true), EndDrain)
    {
      var empty := queue.Empty();
      if empty {
        return false;
      }
      var job := queue.Top();
      due := !(tick < job.tick);
    }

    /** The loop: runs and pops the top job while it is due. */
    method Drain(task: Tasks, ghost states: seq<State>)
      requires Reached(true) && Path(states, task) && states[0] == View(true)
      modifies this`trace, this`ran, this`ranAt, this`pushed, queue
      ensures Reached(true) && old(trace) <= trace && View(true) == states[|states| - 1]
    {
      var n: nat := 0;
      while true
        invariant Reached(true) && old(trace) <= trace && n < |states| && View(true) == states[n]
        decreases |states| - n
      {
        var due := TopIsDue();
        if !due {
          break;
        }
        PathGoesOn(states, task, n);
        Iterate(task(n));
        n := n + 1;
      }
      PathOver(states, task, n);
    }

    /** Samples the clock once, then runs and pops the top job until it is not due. The precondition says
        that the loop ends. Exactly the jobs due at the sampled tick and those that its tasks made due at
        once run, one per iteration, and nothing due remains. */
    method DoTimerJob(now: int, task: Tasks) returns (ghost n: nat)
      requires Reached(false) && tick <= now && Terminates(Sampled(now), task)
      modifies this, queue
      ensures Reached(false) && old(trace) <= trace && Outcome(old(Sampled(now)), task, n, View(true))
    {
      ghost var states;
      n, states := Outcomes(Sampled(now), task);
      SampleClock(now);
      Drain(task, states);
      RunExtend(Initial(start), trace, View(true), EndDrain);
      trace := trace + [EndDrain];
    }
  }
}
