/** What holds in every run of the ownership protocol, from the empty server on. */
module OwnershipTheorems {
  import opened Counting
  import opened IoContexts
  import opened Ownership
  import opened OwnershipInvariant
  import opened OwnershipSteps
  import opened OwnershipAccounts

  lemma InitialInv()
    ensures Inv(Initial())
  {
    var st := Initial();
    forall k: ContextClass
      ensures k in st.pools && Count(st.heap, OfClass(k)) == 0 && Count(st.freed, Same(k)) == 0
    {
      CountNone(st.heap, OfClass(k));
      CountNone(st.freed, Same(k));
    }
    CountNone(st.threads, AwaitingRequest());
    CountNone(st.threads, AwaitingDispatch());
    CountNone(st.threads, InFailure());
  }

  lemma {:induction false} RunKeepsInv(st: State, es: seq<Step>, st': State)
    requires Inv(st) && Run(st, es, st')
    ensures Inv(st')
    decreases |es|
  {
    if es != [] {
      StepKeepsInv(st, es[0]);
      RunKeepsInv(Apply(st, es[0]), es[1..], st');
    }
  }

  lemma {:induction false} RunExtend(st: State, es: seq<Step>, st': State, e: Step)
    requires Run(st, es, st') && Enabled(st', e) && !Faults(st', e)
    ensures Run(st, es + [e], Apply(st', e))
    decreases |es|
  {
    if es == [] {
      assert es + [e] == [e];
    } else {
      RunExtend(Apply(st, es[0]), es[1..], st', e);
      assert (es + [e])[1..] == es[1..] + [e];
    }
  }

  lemma ReachableInv(es: seq<Step>, st: State)
    requires Run(Initial(), es, st)
    ensures Inv(st)
  {
    InitialInv();
    RunKeepsInv(Initial(), es, st);
  }

  // ----- safety -----

  /** In every reachable state a step crashes, touches freed or wild memory or uses a dead session if
      and only if it is one of the hazards. */
  lemma FaultsExactlyOnHazards(es: seq<Step>, st: State, e: Step)
    requires Run(Initial(), es, st) && Enabled(st, e)
    ensures Faults(st, e) <==> Hazard(st, e)
  {
    ReachableInv(es, st);
    FaultsExactly(st, e);
  }

  /** A thread that works on a session through a pointer crashes by calling into it, or by touching it once
      more to leave its send lock, if and only if the reference it came by and every other outside
      reference is dropped and no unreleased context of the session is left. */
  lemma PointerCallExactly(es: seq<Step>, st: State, e: Step)
    requires Run(Initial(), es, st) && Enabled(st, e)
    requires || (e.OnJob? && (e.jobStep.Connect? || e.jobStep.Enter? || e.jobStep.Leave?))
             || (e.OnCall? && e.callStep.Exchange?)
    requires st.threads[e.t].job.Holding?
    ensures Faults(st, e) <==> Unreferenced(st, st.threads[e.t].job.session)
  {
    FaultsExactlyOnHazards(es, st, e);
  }

  /** A session's count is its outside references plus its contexts that were not released. */
  lemma ReferenceConservation(es: seq<Step>, st: State, s: SessionId)
    requires Run(Initial(), es, st) && s in st.sessions
    ensures st.sessions[s].refCount ==
            |set r | r in st.outside && st.outside[r] == s|
            + |set c | c in st.heap && st.heap[c].session == s && !st.heap[c].released|
  {
    ReachableInv(es, st);
    RefBalance(st, s);
  }

  lemma RefBalance(st: State, s: SessionId)
    requires Refs(st) && s in st.sessions
    ensures st.sessions[s].refCount ==
            |set r | r in st.outside && st.outside[r] == s|
            + |set c | c in st.heap && st.heap[c].session == s && !st.heap[c].released|
  {
    assert Matching(st.outside, IsSession(s)) == set r | r in st.outside && st.outside[r] == s;
    assert Matching(st.heap, Unreleased(s)) ==
           set c | c in st.heap && st.heap[c].session == s && !st.heap[c].released;
  }

  /** A posted context, and any context a thread holds, is live; and while it was not released its
      session still has references. */
  lemma HeldSessionAlive(es: seq<Step>, st: State, t: ThreadId, c: CtxId)
    requires Run(Initial(), es, st)
    requires c in st.posted || (t in st.threads && c in Owned(st.threads[t]))
    ensures c in st.heap && (!st.heap[c].released ==> !Dead(st, st.heap[c].session))
    ensures c in st.posted ==> !st.heap[c].released
    ensures c !in st.posted && st.heap[c].released ==> IsFreeing(st, t, c)
  {
    ReachableInv(es, st);
    if c !in st.posted {
      OwnedIsLive(st, t, c);
    }
    if !st.heap[c].released {
      UnreleasedAlive(st, c);
    }
  }

  /** Two threads that handle failed transfers of one session both hold a reference to it, so
      neither can end the session under the other. */
  lemma ConcurrentFailures(es: seq<Step>, st: State, t: ThreadId, u: ThreadId)
    requires Run(Initial(), es, st) && t in st.threads && u in st.threads && t != u
    requires st.threads[t].job.Failing? && st.threads[u].job.Failing?
    requires st.threads[t].job.session == st.threads[u].job.session
    ensures st.threads[t].job.ctx != st.threads[u].job.ctx
    ensures st.threads[t].job.session in st.sessions
    ensures st.sessions[st.threads[t].job.session].refCount >= 2
  {
    ReachableInv(es, st);
    var a, b := st.threads[t].job, st.threads[u].job;
    assert ThreadOk(st, st.threads[t]) && ThreadOk(st, st.threads[u]);
    assert Apart(st.threads[t], st.threads[u]) && a.ctx in Owned(st.threads[t]) && b.ctx in Owned(st.threads[u]);
    CountTwo(st.heap, a.ctx, b.ctx, Unreleased(a.session));
  }

  // ----- ownership -----

  lemma OwnedIsLive(st: State, t: ThreadId, c: CtxId)
    requires Threads(st) && t in st.threads && c in Owned(st.threads[t])
    ensures c in st.heap && c !in st.posted && (st.heap[c].released <==> IsFreeing(st, t, c))
  {
    assert ThreadOk(st, st.threads[t]);
  }

  lemma OneOwner(st: State, t: ThreadId, u: ThreadId, c: CtxId)
    requires Threads(st) && t in st.threads && u in st.threads
    requires c in Owned(st.threads[t]) && c in Owned(st.threads[u])
    ensures t == u
  {
    assert t != u ==> Apart(st.threads[t], st.threads[u]);
  }

  /** A posted context is live, unreleased and in no thread's hands; a context a thread owns is
      live and in no other thread's hands; no context is both live and freed. */
  lemma SingleOwnership(es: seq<Step>, st: State, t: ThreadId, u: ThreadId, c: CtxId)
    requires Run(Initial(), es, st) && t in st.threads && u in st.threads
    ensures c in st.posted ==> c in st.heap && !st.heap[c].released && c !in Owned(st.threads[t])
    ensures c in Owned(st.threads[t]) ==> c in st.heap
    ensures c in Owned(st.threads[t]) && c in Owned(st.threads[u]) ==> t == u
    ensures !(c in st.heap && c in st.freed)
  {
    ReachableInv(es, st);
    if c in Owned(st.threads[t]) {
      OwnedIsLive(st, t, c);
      if c in Owned(st.threads[u]) {
        OneOwner(st, t, u, c);
      }
    }
  }

  /** Every live context carries the tag of its class, so the switch of DeleteIoContext finds it. */
  lemma TagsAreTheirs(es: seq<Step>, st: State, c: CtxId)
    requires Run(Initial(), es, st) && c in st.heap
    ensures st.heap[c].ioType == IoSend <==> st.heap[c].cls == SendContext
    ensures st.heap[c].ioType == IoRecv <==> st.heap[c].cls == RecvContext
    ensures st.heap[c].ioType == IoRecvZero <==> st.heap[c].cls == PreRecvContext
    ensures st.heap[c].ioType == IoDisconnect <==> st.heap[c].cls == DisconnectContext
    ensures st.heap[c].ioType == IoAccept <==> st.heap[c].cls == AcceptContext
    ensures st.heap[c].ioType == IoConnect <==> st.heap[c].cls == ConnectContext
  {
    ReachableInv(es, st);
    ReachableTag(st, c);
  }

  lemma ReachableTag(st: State, c: CtxId)
    requires Shape(st) && c in st.heap
    ensures st.heap[c].ioType == ConstructorTag(st.heap[c].cls)
  {
  }

  /** Between the release of its reference and its free a context is still allocated, so reading
      its tag is valid, and exactly one thread is about to free it, whether or not the release
      ended the session. */
  lemma ReleasedUntilFreed(es: seq<Step>, st: State, c: CtxId)
    requires Run(Initial(), es, st)
    ensures c in st.heap && st.heap[c].released <==> exists t :: IsFreeing(st, t, c)
    ensures forall t, u :: IsFreeing(st, t, c) && IsFreeing(st, u, c) ==> t == u
  {
    ReachableInv(es, st);
    forall t | IsFreeing(st, t, c)
      ensures c in st.heap && st.heap[c].released
    {
      OwnedIsLive(st, t, c);
    }
    forall t, u | IsFreeing(st, t, c) && IsFreeing(st, u, c)
      ensures t == u
    {
      OneOwner(st, t, u, c);
    }
  }

  /** The contexts taken off the port along a run, with repetition. */
  function DequeueEvents(es: seq<Step>): multiset<CtxId> {
    if es == [] then multiset{}
    else (if es[0].OnJob? && es[0].jobStep.Dequeue? then multiset{es[0].jobStep.c} else multiset{})
         + DequeueEvents(es[1..])
  }

  /** The contexts freed along a run, with repetition. */
  ghost function FreeEvents(st: State, es: seq<Step>, st': State): multiset<CtxId>
    requires Run(st, es, st')
    decreases |es|
  {
    if es == [] then multiset{}
    else (if es[0].OnCall? && es[0].callStep.Free? then multiset{st.threads[es[0].t].call.ctx} else multiset{})
         + FreeEvents(Apply(st, es[0]), es[1..], st')
  }

  lemma JobDequeues(st: State, t: ThreadId, e: JobStep)
    requires AtJob(st, t, e)
    ensures ApplyJob(st, t, e).dequeues == st.dequeues + (if e.Dequeue? then multiset{e.c} else multiset{})
  {
  }

  lemma StepDequeues(st: State, e: Step)
    requires Enabled(st, e) && !Faults(st, e)
    ensures Apply(st, e).dequeues ==
            st.dequeues + (if e.OnJob? && e.jobStep.Dequeue? then multiset{e.jobStep.c} else multiset{})
  {
    match e
    case Env(env) => EnvQuiet(st, env);
    case OnJob(t, j) => JobDequeues(st, t, j);
    case OnCall(t, c) => CallQuiet(st, t, c);
  }

  lemma EnvQuiet(st: State, e: EnvStep)
    requires EnvEnabled(st, e) && !EnvFaults(st, e)
    ensures ApplyEnv(st, e).dequeues == st.dequeues && ApplyEnv(st, e).freed == st.freed
  {
  }

  lemma JobFreesNone(st: State, t: ThreadId, e: JobStep)
    requires AtJob(st, t, e)
    ensures ApplyJob(st, t, e).freed == st.freed
  {
    if !e.Connect? {
      JobQuiet(st, t, e);
    }
  }

  lemma OnlyFreeFrees(st: State, e: Step)
    requires Enabled(st, e) && !Faults(st, e) && !(e.OnCall? && e.callStep.Free?)
    ensures Apply(st, e).freed == st.freed
  {
    match e
    case Env(env) => EnvQuiet(st, env);
    case OnJob(t, j) => JobFreesNone(st, t, j);
    case OnCall(t, c) => CallQuiet(st, t, c);
  }

  lemma FreeFreesOne(st: State, t: ThreadId)
    requires Shape(st) && AtCall(st, t, Free)
    ensures multiset(ApplyFree(st, t).freed.Keys) == multiset(st.freed.Keys) + multiset{st.threads[t].call.ctx}
  {
    assert ApplyFree(st, t).freed.Keys == st.freed.Keys + {st.threads[t].call.ctx};
  }

  lemma StepFrees(st: State, e: Step)
    requires Shape(st) && Enabled(st, e) && !Faults(st, e)
    ensures multiset(Apply(st, e).freed.Keys) ==
            multiset(st.freed.Keys)
            + (if e.OnCall? && e.callStep.Free? then multiset{st.threads[e.t].call.ctx} else multiset{})
  {
    if e.OnCall? && e.callStep.Free? {
      FreeFreesOne(st, e.t);
    } else {
      OnlyFreeFrees(st, e);
    }
  }

  lemma {:induction false} DequeuesLogged(st: State, es: seq<Step>, st': State)
    requires Run(st, es, st')
    ensures st'.dequeues == st.dequeues + DequeueEvents(es)
    decreases |es|
  {
    if es != [] {
      StepDequeues(st, es[0]);
      DequeuesLogged(Apply(st, es[0]), es[1..], st');
    }
  }

  lemma {:induction false} FreesLogged(st: State, es: seq<Step>, st': State)
    requires Inv(st) && Run(st, es, st')
    ensures multiset(st'.freed.Keys) == multiset(st.freed.Keys) + FreeEvents(st, es, st')
    decreases |es|
  {
    if es != [] {
      StepFrees(st, es[0]);
      StepKeepsInv(st, es[0]);
      FreesLogged(Apply(st, es[0]), es[1..], st');
    }
  }

  /** In every run each context is taken off the port at most once and freed at most once. */
  lemma EachContextOnce(es: seq<Step>, st: State, c: CtxId)
    requires Run(Initial(), es, st)
    ensures DequeueEvents(es)[c] <= 1
    ensures FreeEvents(Initial(), es, st)[c] <= 1
  {
    ReachableInv(es, st);
    InitialInv();
    DequeuesLogged(Initial(), es, st);
    FreesLogged(Initial(), es, st);
    assert st.posts[c] == st.posted[c] + st.dequeues[c];
    assert multiset(st.freed.Keys)[c] <= 1;
  }

  // ----- pools -----

  /** Each pool's use count is the number of live contexts of its class, and every context ever
      built from it is live or was deleted as that same class. */
  lemma PoolConservation(es: seq<Step>, st: State, k: ContextClass)
    requires Run(Initial(), es, st)
    ensures k in st.pools
    ensures st.pools[k].inUse == |set c | c in st.heap && st.heap[c].cls == k|
    ensures st.pools[k].built ==
            |set c | c in st.heap && st.heap[c].cls == k| + |set c | c in st.freed && st.freed[c] == k|
  {
    ReachableInv(es, st);
    PoolBalance(st, k);
  }

  lemma PoolBalance(st: State, k: ContextClass)
    requires Shape(st) && Pools(st)
    ensures k in st.pools
    ensures st.pools[k].inUse == |set c | c in st.heap && st.heap[c].cls == k|
    ensures st.pools[k].built ==
            |set c | c in st.heap && st.heap[c].cls == k| + |set c | c in st.freed && st.freed[c] == k|
  {
    LiveOfClass(st.heap, k);
    FreedAsClass(st.freed, k);
  }

  lemma LiveOfClass(heap: map<CtxId, Context>, k: ContextClass)
    ensures Count(heap, OfClass(k)) == |set c | c in heap && heap[c].cls == k|
  {
    assert Matching(heap, OfClass(k)) == set c | c in heap && heap[c].cls == k;
  }

  lemma FreedAsClass(freed: map<CtxId, ContextClass>, k: ContextClass)
    ensures Count(freed, Same(k)) == |set c | c in freed && freed[c] == k|
  {
    assert Matching(freed, Same(k)) == set c | c in freed && freed[c] == k;
  }

  // ----- failures -----

  /** No thread is between dequeuing a completion and finishing what DoIocpJob does about it. */
  ghost predicate NoFailureInProgress(st: State) {
    forall t :: t in st.threads ==>
      !st.threads[t].job.Classifying? && !st.threads[t].job.Failing? && st.threads[t].job != Ending(true)
  }

  /** What thread `t` visibly did in a job step: took a failed transfer off the port, called
      DisconnectRequest, or went on to the dispatch. */
  function JobEvents(st: State, t: ThreadId, e: JobStep): Tally
    requires AtJob(st, t, e)
  {
    if e.Dequeue? then
      var x := st.heap[e.c];
      Tally(Weight((x.cls == SendContext || x.cls == RecvContext) && (!e.ret || e.transferred == 0)), 0, 0, 0)
    else if e.Classify? then
      var th := ApplyClassify(st, t).threads[t];
      Tally(0, Weight(th.call.Exchanging?), 0, Weight(th.job.Dispatching?))
    else Tally(0, 0, 0, 0)
  }

  /** The same for any step; a context is deleted for a failure by the free that ends the job. */
  function StepEvents(st: State, e: Step): Tally
    requires Enabled(st, e) && !Faults(st, e)
  {
    match e
    case Env(_) => Tally(0, 0, 0, 0)
    case OnJob(t, j) => JobEvents(st, t, j)
    case OnCall(t, c) => Tally(0, 0, Weight(c.Free? && st.threads[t].job == Ending(true)), 0)
  }

  function Plus(a: Tally, b: Tally): Tally {
    Tally(a.failures + b.failures, a.requests + b.requests, a.deletions + b.deletions, a.dispatches + b.dispatches)
  }

  lemma PlusThen(a: Tally, b: Tally, c: Tally)
    ensures Plus(Plus(a, b), c) == Plus(a, Plus(b, c))
  {
  }

  /** What happened along a run. */
  ghost function RunEvents(st: State, es: seq<Step>, st': State): Tally
    requires Run(st, es, st')
    decreases |es|
  {
    if es == [] then Tally(0, 0, 0, 0)
    else Plus(StepEvents(st, es[0]), RunEvents(Apply(st, es[0]), es[1..], st'))
  }

  lemma JobTallied(st: State, t: ThreadId, e: JobStep)
    requires Shape(st) && AtJob(st, t, e)
    ensures ApplyJob(st, t, e).tally == Plus(st.tally, JobEvents(st, t, e))
  {
    if e.Dequeue? {
      assert ApplyJob(st, t, e) == ApplyDequeue(st, t, e.c, e.ret, e.transferred);
    } else if e.Classify? {
      assert ApplyJob(st, t, e) == ApplyClassify(st, t);
    }
  }

  lemma CallTallied(st: State, t: ThreadId, e: CallStep)
    requires AtCall(st, t, e) && Fits(st.threads[t].job, st.threads[t].call)
    ensures ApplyCall(st, t, e).tally == Plus(st.tally, StepEvents(st, OnCall(t, e)))
  {
    if e.Free? {
      assert ApplyCall(st, t, e) == ApplyFree(st, t);
    } else {
      assert ApplyCall(st, t, e).tally == st.tally;
    }
  }

  lemma StepTallied(st: State, e: Step)
    requires Shape(st) && Threads(st) && Enabled(st, e) && !Faults(st, e)
    ensures Apply(st, e).tally == Plus(st.tally, StepEvents(st, e))
  {
    match e
    case Env(_) =>
    case OnJob(t, j) => JobTallied(st, t, j);
    case OnCall(t, c) =>
      assert ThreadOk(st, st.threads[t]);
      CallTallied(st, t, c);
  }

  lemma {:induction false} EventsTallied(st: State, es: seq<Step>, st': State)
    requires Inv(st) && Run(st, es, st')
    ensures st'.tally == Plus(st.tally, RunEvents(st, es, st'))
    decreases |es|
  {
    if es != [] {
      var mid := Apply(st, es[0]);
      StepTallied(st, es[0]);
      StepKeepsInv(st, es[0]);
      EventsTallied(mid, es[1..], st');
      PlusThen(st.tally, StepEvents(st, es[0]), RunEvents(mid, es[1..], st'));
    }
  }

  /** In every run, once no failure handling is in progress, failed transfers taken off the port,
      DR_COMPLETION_ERROR requests and contexts deleted for them are equally many, and every other
      completion was dispatched. */
  lemma FailureAccounting(es: seq<Step>, st: State)
    requires Run(Initial(), es, st) && NoFailureInProgress(st)
    ensures var n := RunEvents(Initial(), es, st);
      n.failures == n.requests == n.deletions && |DequeueEvents(es)| == n.failures + n.dispatches
  {
    ReachableInv(es, st);
    InitialInv();
    EventsTallied(Initial(), es, st);
    DequeuesLogged(Initial(), es, st);
    assert st.dequeues == DequeueEvents(es);
    CountNone(st.threads, AwaitingRequest());
    CountNone(st.threads, AwaitingDispatch());
    CountNone(st.threads, InFailure());
  }

  /** A completion that reaches the dispatch is live, unreleased and of a live session. It is never a
      receive. */
  lemma DispatchedLive(es: seq<Step>, st: State, t: ThreadId)
    requires Run(Initial(), es, st) && t in st.threads && st.threads[t].job.Dispatching?
    ensures var Dispatching(c, s, _) := st.threads[t].job;
      && c in st.heap && !st.heap[c].released && st.heap[c].session == s && !Dead(st, s)
      && st.heap[c].cls != RecvContext
  {
    ReachableInv(es, st);
    assert ThreadOk(st, st.threads[t]);
    PinnedAlive(st, st.threads[t].job);
  }

  // ----- disconnects -----

  predicate AboutToDisconnect(th: Thread, s: SessionId) {
    th.call.Constructing? && th.call.session == s && th.call.cls == DisconnectContext
  }

  /** Every connection of a session is answered by exactly one disconnect context: built, about to
      be built by the one thread whose exchange found it connected, or not yet asked for. */
  lemma OneDisconnectPerConnection(es: seq<Step>, st: State, s: SessionId)
    requires Run(Initial(), es, st) && s in st.sessions
    ensures st.sessions[s].connects ==
            st.sessions[s].disconnects
            + |set t | t in st.threads && AboutToDisconnect(st.threads[t], s)|
            + (if st.sessions[s].connected then 1 else 0)
  {
    ReachableInv(es, st);
    DisconnectBalance(st, s);
  }

  lemma DisconnectBalance(st: State, s: SessionId)
    requires Disconnects(st) && s in st.sessions
    ensures st.sessions[s].connects ==
            st.sessions[s].disconnects
            + |set t | t in st.threads && AboutToDisconnect(st.threads[t], s)|
            + (if st.sessions[s].connected then 1 else 0)
  {
    assert Matching(st.threads, BuildsDisconnect(s)) ==
           set t | t in st.threads && AboutToDisconnect(st.threads[t], s);
  }
}
