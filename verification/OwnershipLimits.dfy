/** When the hazards of the ownership protocol strike: the hundred-and-first context of a class, and a
    worker on a closed port. */
module OwnershipLimits {
  import opened Counting
  import opened IoContexts
  import opened Ownership
  import opened OwnershipInvariant
  import opened OwnershipSteps
  import opened OwnershipAccounts
  import opened OwnershipTheorems

  // ----- the pools -----

  /** A step that allocates a chunk finds a word that is not null behind its last slot. */
  predicate ReadsWild(e: Step) {
    e.OnCall? && e.callStep.Construct? ==> e.callStep.wild
  }

  predicate AllWild(es: seq<Step>) {
    forall i :: 0 <= i < |es| ==> ReadsWild(es[i])
  }

  /** A pool has no chunk yet, or one chunk whose last link is wild. */
  predicate OneChunk(p: Pool) {
    if p.wild then p.total == ALLOC_COUNT else p.total == 0
  }

  ghost predicate OneChunkEach(st: State) {
    forall k :: k in st.pools ==> OneChunk(st.pools[k])
  }

  lemma ConstructOneChunk(st: State, t: ThreadId, c: CtxId)
    requires OneChunkEach(st) && AtCall(st, t, Construct(c, true))
    ensures OneChunkEach(ApplyConstruct(st, t, c, true))
  {
  }

  lemma EnvOneChunk(st: State, e: EnvStep)
    requires OneChunkEach(st) && EnvEnabled(st, e) && !EnvFaults(st, e)
    ensures OneChunkEach(ApplyEnv(st, e))
  {
  }

  lemma FreeOneChunk(st: State, t: ThreadId)
    requires OneChunkEach(st) && AtCall(st, t, Free)
    ensures OneChunkEach(ApplyFree(st, t))
  {
  }

  lemma OtherOneChunk(st: State, e: Step)
    requires OneChunkEach(st) && Enabled(st, e) && !Faults(st, e) && !(e.OnCall? && e.callStep.Construct?)
    ensures OneChunkEach(Apply(st, e))
  {
    match e
    case Env(env) => EnvOneChunk(st, env);
    case OnJob(t, j) => JobOneChunk(st, t, j);
    case OnCall(t, c) => if c.Free? { FreeOneChunk(st, t); } else { CallOneChunk(st, t, c); }
  }

  lemma JobOneChunk(st: State, t: ThreadId, e: JobStep)
    requires OneChunkEach(st) && AtJob(st, t, e)
    ensures OneChunkEach(ApplyJob(st, t, e))
  {
    if !e.Connect? {
      JobQuiet(st, t, e);
    }
  }

  lemma CallOneChunk(st: State, t: ThreadId, e: CallStep)
    requires OneChunkEach(st) && AtCall(st, t, e) && !e.Construct? && !e.Free?
    ensures OneChunkEach(ApplyCall(st, t, e))
  {
  }

  lemma {:induction false} RunOneChunk(st: State, es: seq<Step>, st': State)
    requires OneChunkEach(st) && Run(st, es, st') && AllWild(es)
    ensures OneChunkEach(st')
    decreases |es|
  {
    if es != [] {
      assert ReadsWild(es[0]);
      if es[0].OnCall? && es[0].callStep.Construct? {
        ConstructOneChunk(st, es[0].t, es[0].callStep.c);
      } else {
        OtherOneChunk(st, es[0]);
      }
      RunOneChunk(Apply(st, es[0]), es[1..], st');
    }
  }

  /** In a process whose uninitialised memory never reads as null, building a context crashes if and
      only if the thread is lost, its session's count is exhausted or a hundred contexts of its class
      are live. */
  lemma HundredLiveContexts(es: seq<Step>, st: State, t: ThreadId, c: CtxId, wild: bool)
    requires Run(Initial(), es, st) && AllWild(es) && Enabled(st, OnCall(t, Construct(c, wild)))
    ensures st.threads[t].call.session in st.sessions
    ensures Faults(st, OnCall(t, Construct(c, wild))) <==>
            || Lost(st, st.threads[t])
            || st.sessions[st.threads[t].call.session].refCount == MAX_LONG
            || |set d | d in st.heap && st.heap[d].cls == st.threads[t].call.cls| == 100
  {
    RunOneChunk(Initial(), es, st);
    PoolConservation(es, st, st.threads[t].call.cls);
    FaultsExactlyOnHazards(es, st, OnCall(t, Construct(c, wild)));
    ConstructingKnown(es, st, t);
    ExhaustedExactly(es, st, st.threads[t].call.cls);
  }

  lemma ConstructingKnown(es: seq<Step>, st: State, t: ThreadId)
    requires Run(Initial(), es, st) && t in st.threads && st.threads[t].call.Constructing?
    ensures st.threads[t].call.session in st.sessions
  {
    ReachableInv(es, st);
    assert ThreadOk(st, st.threads[t]);
    LostExactly(st, st.threads[t]);
  }

  lemma ExhaustedExactly(es: seq<Step>, st: State, k: ContextClass)
    requires Run(Initial(), es, st) && OneChunkEach(st) && k in st.pools
    ensures Exhausted(st.pools[k]) <==> st.pools[k].inUse == ALLOC_COUNT
  {
    ReachableInv(es, st);
    assert OneChunk(st.pools[k]);
  }

  // ----- the port -----

  lemma StepCloses(st: State, e: Step)
    requires Enabled(st, e) && !Faults(st, e)
    ensures Apply(st, e).closed <==> st.closed || e == Env(ClosePort)
  {
    match e
    case Env(_) =>
    case OnJob(t, j) => JobLeavesPort(st, t, j);
    case OnCall(t, c) => CallQuiet(st, t, c);
  }

  lemma JobLeavesPort(st: State, t: ThreadId, e: JobStep)
    requires AtJob(st, t, e)
    ensures ApplyJob(st, t, e).closed == st.closed
  {
  }

  lemma {:induction false} RunCloses(st: State, es: seq<Step>, st': State)
    requires Run(st, es, st')
    ensures st'.closed <==> st.closed || Env(ClosePort) in es
    decreases |es|
  {
    if es != [] {
      StepCloses(st, es[0]);
      RunCloses(Apply(st, es[0]), es[1..], st');
      assert es == [es[0]] + es[1..];
    }
  }

  /** As long as Finalize has not closed the port, no step of a thread that only runs the worker loop
      crashes, but for the construction of a context when the count of its session or the pool of its
      class is exhausted: no null, freed or wild context is dereferenced, no assertion trips, and no
      dead session is called. */
  lemma WorkerLoopSafeWhileOpen(es: seq<Step>, st: State, e: Step)
    requires Run(Initial(), es, st) && Env(ClosePort) !in es
    requires Enabled(st, e) && !e.Env? && !st.threads[e.t].job.Holding?
    ensures Faults(st, e) <==> e.OnCall? && e.callStep.Construct? && ConstructHazard(st, st.threads[e.t].call)
  {
    RunCloses(Initial(), es, st);
    FaultsExactlyOnHazards(es, st, e);
  }

  /** In particular no null context comes back that the worker cannot survive. */
  lemma NullSafeWhileOpen(es: seq<Step>, st: State, t: ThreadId, ret: bool, transferred: nat, error: LastError)
    requires Run(Initial(), es, st) && Env(ClosePort) !in es
    requires Enabled(st, OnJob(t, DequeueNull(ret, transferred, error)))
    ensures !Faults(st, OnJob(t, DequeueNull(ret, transferred, error)))
  {
    WorkerLoopSafeWhileOpen(es, st, OnJob(t, DequeueNull(ret, transferred, error)));
  }

  /** Once it has, a worker that waits on the port never gets a completion again: each wait times out
      and changes nothing, or crashes the process; and a crash is always possible. */
  lemma ClosedPortCrashes(es: seq<Step>, st: State, t: ThreadId, e: JobStep)
    requires Run(Initial(), es, st) && Env(ClosePort) in es
    requires t in st.threads && st.threads[t] == Thread(Idle, NoCall)
    ensures var crash := OnJob(t, DequeueNull(false, 0, OtherError)); Enabled(st, crash) && Faults(st, crash)
    ensures Enabled(st, OnJob(t, e)) && !e.Borrow? ==>
      e.DequeueNull? && (Faults(st, OnJob(t, e)) || Apply(st, OnJob(t, e)) == st)
  {
    RunCloses(Initial(), es, st);
  }

  // ----- what the port offers -----

  /** An idle thread can always wait in vain: the wait times out, and nothing changes. */
  lemma WaitCanTimeOut(es: seq<Step>, st: State, t: ThreadId)
    requires Run(Initial(), es, st) && t in st.threads && st.threads[t] == Thread(Idle, NoCall)
    ensures var wait := OnJob(t, DequeueNull(false, 0, WaitTimeout));
      Enabled(st, wait) && !Faults(st, wait) && Apply(st, wait) == st
  {
  }

  /** While the port is open an idle thread can get any posted context, with any result up to the bytes it
      was offered. */
  lemma PostedCanComplete(es: seq<Step>, st: State, t: ThreadId, c: CtxId, ret: bool, transferred: nat)
    requires Run(Initial(), es, st) && Env(ClosePort) !in es
    requires t in st.threads && st.threads[t] == Thread(Idle, NoCall) && c in st.posted
    ensures c in st.heap
    ensures transferred <= st.heap[c].offered ==>
      var dequeue := OnJob(t, Dequeue(c, ret, transferred)); Enabled(st, dequeue) && !Faults(st, dequeue)
  {
    RunCloses(Initial(), es, st);
    ReachableInv(es, st);
  }

  /** A send, a receive or a zero-byte receive is begun only while the session is connected. */
  lemma TransfersNeedConnection(es: seq<Step>, st: State, t: ThreadId, cls: ContextClass, len: nat)
    requires Run(Initial(), es, st) && Enabled(st, OnJob(t, Enter(Post(cls, len))))
    requires !Faults(st, OnJob(t, Enter(Post(cls, len))))
    requires cls == SendContext || cls == RecvContext || cls == PreRecvContext
    ensures var s := st.threads[t].job.session; s in st.sessions && st.sessions[s].connected
    ensures cls == SendContext <==> len > 0
  {
  }

  // ----- what a thread can do -----

  /** A thread outside the lock that works on a live session can begin any call on it: a send with bytes,
      a receive or zero-byte receive without, each only while connected, and an accept or connect. */
  lemma CallsCanBegin(es: seq<Step>, st: State, t: ThreadId, cls: ContextClass, len: nat)
    requires Run(Initial(), es, st) && t in st.threads && st.threads[t].call == NoCall
    requires (st.threads[t].job.Holding? || st.threads[t].job.Dispatching?) && !st.threads[t].job.inside
    requires !Dead(st, st.threads[t].job.session)
    requires
      match cls
      case SendContext => len > 0 && st.sessions[st.threads[t].job.session].connected
      case RecvContext => len == 0 && st.sessions[st.threads[t].job.session].connected
      case PreRecvContext => len == 0 && st.sessions[st.threads[t].job.session].connected
      case DisconnectContext => false
      case AcceptContext => true
      case ConnectContext => true
    ensures var e, s := OnJob(t, Enter(Post(cls, len))), st.threads[t].job.session;
      && Enabled(st, e) && !Faults(st, e)
      && t in Apply(st, e).threads && Apply(st, e).threads[t].call == Constructing(s, cls, len)
      && Apply(st, e).threads[t].job == st.threads[t].job.(inside := cls == SendContext)
  {
  }

  /** A dispatch can end either way: with its context deleted or kept. */
  lemma DispatchCanEnd(es: seq<Step>, st: State, t: ThreadId)
    requires Run(Initial(), es, st) && t in st.threads && st.threads[t].call == NoCall
    requires st.threads[t].job.Dispatching? && !st.threads[t].job.inside
    ensures var keep := OnJob(t, EndDispatch(false));
      Enabled(st, keep) && !Faults(st, keep) && Apply(st, keep) == SetThread(st, t, Thread(Idle, NoCall))
    ensures var delete := OnJob(t, EndDispatch(true));
      && Enabled(st, delete) && !Faults(st, delete)
      && Apply(st, delete) == SetThread(st, t, Thread(Ending(false), Releasing(st.threads[t].job.ctx, EndJob)))
  {
  }

  /** Any outside reference leads a thread to its session. */
  lemma ReferencesCanBeUsed(es: seq<Step>, st: State, t: ThreadId, r: RefId)
    requires Run(Initial(), es, st) && t in st.threads && st.threads[t] == Thread(Idle, NoCall) && r in st.outside
    ensures var e := OnJob(t, Borrow(r));
      && Enabled(st, e) && !Faults(st, e)
      && Apply(st, e) == SetThread(st, t, Thread(Holding(st.outside[r], false), NoCall))
    ensures !Dead(st, st.outside[r])
  {
    ReachableInv(es, st);
    OutsideAlive(st, r);
  }
}
