/** Every step keeps the counts of the ownership protocol: references, pools, failures, disconnects. */
module OwnershipAccounts {
  import opened Counting
  import opened IoContexts
  import opened Ownership
  import opened OwnershipInvariant
  import opened OwnershipSteps

  // ----- references -----

  lemma RefsAdded(st: State, st': State, c: CtxId, x: Context)
    requires Refs(st) && c !in st.heap && !x.released && x.session in st.sessions
    requires st'.outside == st.outside && st'.heap == st.heap[c := x]
    requires x.session in st'.sessions && st'.sessions == st.sessions[x.session := st'.sessions[x.session]]
    requires st'.sessions[x.session].refCount == st.sessions[x.session].refCount + 1
    ensures Refs(st')
  {
    forall s | s in st'.sessions
      ensures st'.sessions[s].refCount == Count(st'.outside, IsSession(s)) + Count(st'.heap, Unreleased(s))
    {
      CountUpdate(st.heap, c, x, Unreleased(s));
    }
  }

  lemma RefsReleased(st: State, st': State, c: CtxId)
    requires Refs(st) && c in st.heap && !st.heap[c].released && st.heap[c].session in st.sessions
    requires st'.outside == st.outside && st'.heap == st.heap[c := st.heap[c].(released := true)]
    requires var s := st.heap[c].session;
      && s in st'.sessions && st'.sessions == st.sessions[s := st'.sessions[s]]
      && st'.sessions[s].refCount == st.sessions[s].refCount - 1
    ensures Refs(st')
  {
    forall s | s in st'.sessions
      ensures st'.sessions[s].refCount == Count(st'.outside, IsSession(s)) + Count(st'.heap, Unreleased(s))
    {
      CountUpdate(st.heap, c, st.heap[c].(released := true), Unreleased(s));
    }
  }

  lemma RefsFreed(st: State, st': State, c: CtxId)
    requires Refs(st) && c in st.heap && st.heap[c].released
    requires st'.outside == st.outside && st'.heap == st.heap - {c} && st'.sessions == st.sessions
    ensures Refs(st')
  {
    forall s | s in st'.sessions
      ensures st'.sessions[s].refCount == Count(st'.outside, IsSession(s)) + Count(st'.heap, Unreleased(s))
    {
      CountRemove(st.heap, c, Unreleased(s));
    }
  }

  lemma RefsSame(st: State, st': State)
    requires Refs(st) && st'.outside == st.outside && st'.heap == st.heap && st'.sessions.Keys == st.sessions.Keys
    requires forall s :: s in st.sessions ==> st'.sessions[s].refCount == st.sessions[s].refCount
    ensures Refs(st')
  {
  }

  lemma TakeRefRefs(st: State, r: RefId, s: SessionId)
    requires Refs(st) && EnvEnabled(st, TakeRef(r, s)) && !EnvFaults(st, TakeRef(r, s))
    ensures Refs(ApplyEnv(st, TakeRef(r, s)))
  {
    forall x | x in st.sessions
      ensures Count(st.outside[r := s], IsSession(x)) == Count(st.outside, IsSession(x)) + Weight(x == s)
    {
      CountUpdate(st.outside, r, s, IsSession(x));
    }
  }

  lemma DropRefRefs(st: State, r: RefId)
    requires Refs(st) && EnvEnabled(st, DropRef(r)) && !EnvFaults(st, DropRef(r))
    ensures Refs(ApplyEnv(st, DropRef(r)))
  {
    var st' := ApplyEnv(st, DropRef(r));
    forall s | s in st'.sessions
      ensures st'.sessions[s].refCount == Count(st'.outside, IsSession(s)) + Count(st'.heap, Unreleased(s))
    {
      CountRemove(st.outside, r, IsSession(s));
      assert IsSession(s)(st.outside[r]) == (st.outside[r] == s);
    }
  }

  lemma NewSessionRefs(st: State, s: SessionId)
    requires Shape(st) && Refs(st) && s !in st.sessions
    ensures Refs(ApplyEnv(st, NewSession(s)))
  {
    CountNone(st.outside, IsSession(s));
    CountNone(st.heap, Unreleased(s));
  }

  // ----- pools -----

  lemma PoolAdded(p: Pool, heap: map<CtxId, Context>, freed: map<CtxId, ContextClass>, c: CtxId, x: Context, k: ContextClass, wild: bool)
    requires PoolOk(p, heap, freed, k) && c !in heap
    ensures PoolOk(if x.cls == k then Allocated(p, wild) else p, heap[c := x], freed, k)
  {
    CountUpdate(heap, c, x, OfClass(k));
  }

  lemma PoolReleased(p: Pool, heap: map<CtxId, Context>, freed: map<CtxId, ContextClass>, c: CtxId, k: ContextClass)
    requires PoolOk(p, heap, freed, k) && c in heap
    ensures PoolOk(p, heap[c := heap[c].(released := true)], freed, k)
  {
    CountUpdate(heap, c, heap[c].(released := true), OfClass(k));
  }

  lemma PoolFreed(p: Pool, heap: map<CtxId, Context>, freed: map<CtxId, ContextClass>, c: CtxId, k: ContextClass)
    requires PoolOk(p, heap, freed, k) && c in heap && c !in freed
    ensures PoolOk(if heap[c].cls == k then p.(deleted := p.deleted + 1, inUse := p.inUse - 1) else p,
                   heap - {c}, freed[c := heap[c].cls], k)
  {
    CountRemove(heap, c, OfClass(k));
    CountUpdate(freed, c, heap[c].cls, Same(k));
  }

  lemma ConstructPools(st: State, t: ThreadId, c: CtxId, wild: bool)
    requires Pools(st) && AtCall(st, t, Construct(c, wild))
    ensures Pools(ApplyConstruct(st, t, c, wild))
  {
    var st' := ApplyConstruct(st, t, c, wild);
    forall k | k in st'.pools
      ensures PoolOk(st'.pools[k], st'.heap, st'.freed, k)
    {
      PoolAdded(st.pools[k], st.heap, st.freed, c, st'.heap[c], k, wild);
    }
  }

  lemma ReleasePools(st: State, t: ThreadId)
    requires Pools(st) && AtCall(st, t, Release)
    ensures Pools(ApplyRelease(st, t))
  {
    var st' := ApplyRelease(st, t);
    forall k | k in st'.pools
      ensures PoolOk(st'.pools[k], st'.heap, st'.freed, k)
    {
      PoolReleased(st.pools[k], st.heap, st.freed, st.threads[t].call.ctx, k);
    }
  }

  lemma FreePools(st: State, t: ThreadId)
    requires Shape(st) && Pools(st) && AtCall(st, t, Free)
    ensures Pools(ApplyFree(st, t))
  {
    var st' := ApplyFree(st, t);
    forall k | k in st'.pools
      ensures PoolOk(st'.pools[k], st'.heap, st'.freed, k)
    {
      PoolFreed(st.pools[k], st.heap, st.freed, st.threads[t].call.ctx, k);
    }
  }

  // ----- failures and disconnects -----

  /** The tallies follow a thread's move from `th` to `th'`. */
  predicate Balanced(a: Tally, b: Tally, dequeued: int, th: Thread, th': Thread) {
    && b.failures - a.failures ==
       b.requests - a.requests + Weight(AwaitingRequest()(th')) - Weight(AwaitingRequest()(th))
    && b.requests - a.requests ==
       b.deletions - a.deletions + Weight(InFailure()(th')) - Weight(InFailure()(th))
    && dequeued == b.failures - a.failures + b.dispatches - a.dispatches
                   + Weight(AwaitingDispatch()(th')) - Weight(AwaitingDispatch()(th))
  }

  lemma TalliesMoved(st: State, st': State, t: ThreadId, th': Thread)
    requires Tallies(st) && t in st.threads && st'.threads == st.threads[t := th']
    requires Balanced(st.tally, st'.tally, |st'.dequeues| - |st.dequeues|, st.threads[t], th')
    ensures Tallies(st')
  {
    CountUpdate(st.threads, t, th', AwaitingRequest());
    CountUpdate(st.threads, t, th', AwaitingDispatch());
    CountUpdate(st.threads, t, th', InFailure());
  }

  lemma DisconnectsMoved(st: State, st': State, t: ThreadId, th': Thread)
    requires Disconnects(st) && t in st.threads && st'.threads == st.threads[t := th']
    requires st'.sessions.Keys == st.sessions.Keys
    requires forall s :: s in st.sessions ==>
               var a, b := st.sessions[s], st'.sessions[s];
               b.connects - a.connects ==
                 Weight(b.connected) - Weight(a.connected) + b.disconnects - a.disconnects
                 + Weight(BuildsDisconnect(s)(th')) - Weight(BuildsDisconnect(s)(st.threads[t]))
    ensures Disconnects(st')
  {
    forall s | s in st.sessions
      ensures Count(st'.threads, BuildsDisconnect(s)) ==
              Count(st.threads, BuildsDisconnect(s))
              - Weight(BuildsDisconnect(s)(st.threads[t])) + Weight(BuildsDisconnect(s)(th'))
    {
      CountUpdate(st.threads, t, th', BuildsDisconnect(s));
    }
  }

  // ----- each step -----

  lemma ExchangeTallies(st: State, t: ThreadId)
    requires Tallies(st) && AtCall(st, t, Exchange)
    ensures Tallies(ApplyExchange(st, t))
  {
    TalliesMoved(st, ApplyExchange(st, t), t, ApplyExchange(st, t).threads[t]);
  }

  lemma ExchangeDisconnects(st: State, t: ThreadId)
    requires Disconnects(st) && AtCall(st, t, Exchange)
    ensures Disconnects(ApplyExchange(st, t))
  {
    DisconnectsMoved(st, ApplyExchange(st, t), t, ApplyExchange(st, t).threads[t]);
  }

  lemma ExchangeRefs(st: State, t: ThreadId)
    requires Refs(st) && AtCall(st, t, Exchange)
    ensures Refs(ApplyExchange(st, t))
  {
    RefsSame(st, ApplyExchange(st, t));
  }

  lemma ExchangePools(st: State, t: ThreadId)
    requires Pools(st) && AtCall(st, t, Exchange)
    ensures Pools(ApplyExchange(st, t))
  {
  }

  lemma ExchangeAccounts(st: State, t: ThreadId)
    requires Accounts(st) && AtCall(st, t, Exchange)
    ensures Accounts(ApplyExchange(st, t))
  {
    ExchangeRefs(st, t);
    ExchangePools(st, t);
    ExchangeTallies(st, t);
    ExchangeDisconnects(st, t);
  }

  lemma ConstructMoves(st: State, t: ThreadId, c: CtxId, wild: bool)
    requires Tallies(st) && Disconnects(st) && AtCall(st, t, Construct(c, wild))
    ensures Tallies(ApplyConstruct(st, t, c, wild)) && Disconnects(ApplyConstruct(st, t, c, wild))
  {
    var st' := ApplyConstruct(st, t, c, wild);
    TalliesMoved(st, st', t, st'.threads[t]);
    DisconnectsMoved(st, st', t, st'.threads[t]);
  }

  lemma ConstructRefs(st: State, t: ThreadId, c: CtxId, wild: bool)
    requires Refs(st) && AtCall(st, t, Construct(c, wild))
    ensures Refs(ApplyConstruct(st, t, c, wild))
  {
    var st' := ApplyConstruct(st, t, c, wild);
    RefsAdded(st, st', c, st'.heap[c]);
  }

  lemma ConstructAccounts(st: State, t: ThreadId, c: CtxId, wild: bool)
    requires Accounts(st) && AtCall(st, t, Construct(c, wild))
    ensures Accounts(ApplyConstruct(st, t, c, wild))
  {
    ConstructRefs(st, t, c, wild);
    ConstructPools(st, t, c, wild);
    ConstructMoves(st, t, c, wild);
  }

  lemma SubmitAccounts(st: State, t: ThreadId, answer: Answer)
    requires Accounts(st) && AtCall(st, t, Submit(answer))
    ensures Accounts(ApplySubmit(st, t, answer))
  {
    var st' := ApplySubmit(st, t, answer);
    TalliesMoved(st, st', t, st'.threads[t]);
    DisconnectsMoved(st, st', t, st'.threads[t]);
  }

  lemma ReleaseMoves(st: State, t: ThreadId)
    requires Tallies(st) && Disconnects(st) && AtCall(st, t, Release)
    ensures Tallies(ApplyRelease(st, t)) && Disconnects(ApplyRelease(st, t))
  {
    var st' := ApplyRelease(st, t);
    TalliesMoved(st, st', t, st'.threads[t]);
    DisconnectsMoved(st, st', t, st'.threads[t]);
  }

  lemma ReleaseRefs(st: State, t: ThreadId)
    requires Refs(st) && AtCall(st, t, Release)
    ensures Refs(ApplyRelease(st, t))
  {
    RefsReleased(st, ApplyRelease(st, t), st.threads[t].call.ctx);
  }

  lemma ReleaseAccounts(st: State, t: ThreadId)
    requires Accounts(st) && AtCall(st, t, Release)
    ensures Accounts(ApplyRelease(st, t))
  {
    ReleaseRefs(st, t);
    ReleasePools(st, t);
    ReleaseMoves(st, t);
  }

  lemma FreeMoves(st: State, t: ThreadId)
    requires Tallies(st) && Disconnects(st) && AtCall(st, t, Free) && ThreadOk(st, st.threads[t])
    ensures Tallies(ApplyFree(st, t)) && Disconnects(ApplyFree(st, t))
  {
    var st' := ApplyFree(st, t);
    TalliesMoved(st, st', t, st'.threads[t]);
    DisconnectsMoved(st, st', t, st'.threads[t]);
  }

  lemma FreeRefs(st: State, t: ThreadId)
    requires Refs(st) && AtCall(st, t, Free) && ThreadOk(st, st.threads[t])
    ensures Refs(ApplyFree(st, t))
  {
    RefsFreed(st, ApplyFree(st, t), st.threads[t].call.ctx);
  }

  lemma FreeAccounts(st: State, t: ThreadId)
    requires Shape(st) && Accounts(st) && AtCall(st, t, Free) && ThreadOk(st, st.threads[t])
    ensures Accounts(ApplyFree(st, t))
  {
    FreeRefs(st, t);
    FreePools(st, t);
    FreeMoves(st, t);
  }

  /** Apart from Connect, a job step leaves sessions, contexts, pools and references alone. */
  lemma JobQuiet(st: State, t: ThreadId, e: JobStep)
    requires AtJob(st, t, e) && !e.Connect?
    ensures var st' := ApplyJob(st, t, e);
      && st'.sessions == st.sessions && st'.heap == st.heap && st'.pools == st.pools
      && st'.freed == st.freed && st'.outside == st.outside
      && t in st'.threads && st'.threads == st.threads[t := st'.threads[t]]
  {
    var st' := ApplyJob(st, t, e);
    if e.Dequeue? {
      assert st' == ApplyDequeue(st, t, e.c, e.ret, e.transferred);
    } else if e.Classify? {
      assert st' == ApplyClassify(st, t);
    } else if e.DequeueNull? {
      assert st' == st;
    } else {
      assert st' == SetThread(st, t, st'.threads[t]);
    }
  }

  /** A call step moves only its own thread, whose job it keeps or ends, frees nothing unless it is
      Free, and leaves the port and the outside references alone. */
  lemma CallQuiet(st: State, t: ThreadId, e: CallStep)
    requires AtCall(st, t, e)
    ensures var st' := ApplyCall(st, t, e);
      && t in st'.threads && st'.threads == st.threads[t := st'.threads[t]]
      && (st'.threads[t].job == st.threads[t].job || st'.threads[t].job == Idle)
      && st'.outside == st.outside && st'.closed == st.closed && (!e.Free? ==> st'.freed == st.freed)
      && st'.dequeues == st.dequeues
  {
    CallMovesOne(st, t, e);
    match e
    case Exchange => assert ApplyCall(st, t, e) == ApplyExchange(st, t);
    case Construct(c, wild) => assert ApplyCall(st, t, e) == ApplyConstruct(st, t, c, wild);
    case Submit(answer) => assert ApplyCall(st, t, e) == ApplySubmit(st, t, answer);
    case Release => assert ApplyCall(st, t, e) == ApplyRelease(st, t);
    case Free => assert ApplyCall(st, t, e) == ApplyFree(st, t);
  }

  lemma CallMovesOne(st: State, t: ThreadId, e: CallStep)
    requires AtCall(st, t, e)
    ensures var st' := ApplyCall(st, t, e);
      && t in st'.threads && st'.threads == st.threads[t := st'.threads[t]]
      && (st'.threads[t].job == st.threads[t].job || st'.threads[t].job == Idle)
  {
    match e
    case Exchange => assert ApplyCall(st, t, e) == ApplyExchange(st, t);
    case Construct(c, wild) => assert ApplyCall(st, t, e) == ApplyConstruct(st, t, c, wild);
    case Submit(answer) => assert ApplyCall(st, t, e) == ApplySubmit(st, t, answer);
    case Release => assert ApplyCall(st, t, e) == ApplyRelease(st, t);
    case Free => assert ApplyCall(st, t, e) == ApplyFree(st, t);
  }

  lemma DequeueTallies(st: State, t: ThreadId, c: CtxId, ret: bool, transferred: nat)
    requires Tallies(st) && AtJob(st, t, Dequeue(c, ret, transferred))
    ensures Tallies(ApplyDequeue(st, t, c, ret, transferred))
  {
    var st' := ApplyDequeue(st, t, c, ret, transferred);
    TalliesMoved(st, st', t, st'.threads[t]);
  }

  lemma ClassifyTallies(st: State, t: ThreadId)
    requires Shape(st) && Tallies(st) && AtJob(st, t, Classify) && JobOk(st, st.threads[t].job)
    ensures Tallies(ApplyClassify(st, t))
  {
    TalliesMoved(st, ApplyClassify(st, t), t, ApplyClassify(st, t).threads[t]);
  }

  lemma FailReturnTallies(st: State, t: ThreadId)
    requires Tallies(st) && AtJob(st, t, FailReturn)
    ensures Tallies(ApplyJob(st, t, FailReturn))
  {
    TalliesMoved(st, ApplyJob(st, t, FailReturn), t, ApplyJob(st, t, FailReturn).threads[t]);
  }

  lemma BorrowTallies(st: State, t: ThreadId, e: JobStep)
    requires Tallies(st) && AtJob(st, t, e) && (e.Borrow? || e.GiveBack? || e.Leave?)
    ensures Tallies(ApplyJob(st, t, e))
  {
    TalliesMoved(st, ApplyJob(st, t, e), t, ApplyJob(st, t, e).threads[t]);
  }

  lemma EnterTallies(st: State, t: ThreadId, op: Operation)
    requires Tallies(st) && AtJob(st, t, Enter(op))
    ensures Tallies(ApplyJob(st, t, Enter(op)))
  {
    TalliesMoved(st, ApplyJob(st, t, Enter(op)), t, ApplyJob(st, t, Enter(op)).threads[t]);
  }

  lemma EndDispatchTallies(st: State, t: ThreadId, delete: bool)
    requires Tallies(st) && AtJob(st, t, EndDispatch(delete))
    ensures Tallies(ApplyJob(st, t, EndDispatch(delete)))
  {
    TalliesMoved(st, ApplyJob(st, t, EndDispatch(delete)), t, ApplyJob(st, t, EndDispatch(delete)).threads[t]);
  }

  lemma JobTallies(st: State, t: ThreadId, e: JobStep)
    requires Shape(st) && Tallies(st) && AtJob(st, t, e) && JobOk(st, st.threads[t].job) && !e.Connect?
    ensures Tallies(ApplyJob(st, t, e))
  {
    match e
    case Dequeue(c, ret, transferred) => DequeueTallies(st, t, c, ret, transferred);
    case Classify => ClassifyTallies(st, t);
    case FailReturn => FailReturnTallies(st, t);
    case Enter(op) => EnterTallies(st, t, op);
    case EndDispatch(delete) => EndDispatchTallies(st, t, delete);
    case DequeueNull(_, _, _) =>
    case _ => BorrowTallies(st, t, e);
  }

  lemma JobDisconnects(st: State, t: ThreadId, e: JobStep)
    requires Disconnects(st) && AtJob(st, t, e) && !e.Connect?
    ensures Disconnects(ApplyJob(st, t, e))
  {
    var st' := ApplyJob(st, t, e);
    JobQuiet(st, t, e);
    DisconnectsMoved(st, st', t, st'.threads[t]);
  }

  lemma ConnectAccounts(st: State, t: ThreadId)
    requires Accounts(st) && AtJob(st, t, Connect)
    ensures Accounts(ApplyJob(st, t, Connect))
  {
    ConnectOthers(st, t);
    ConnectDisconnects(st, t);
  }

  lemma ConnectOthers(st: State, t: ThreadId)
    requires Refs(st) && Pools(st) && Tallies(st) && AtJob(st, t, Connect)
    ensures var st' := ApplyJob(st, t, Connect); Refs(st') && Pools(st') && Tallies(st')
  {
    RefsSame(st, ApplyJob(st, t, Connect));
  }

  lemma ConnectDisconnects(st: State, t: ThreadId)
    requires Disconnects(st) && AtJob(st, t, Connect)
    ensures Disconnects(ApplyJob(st, t, Connect))
  {
    assert st.threads == st.threads[t := st.threads[t]];
    DisconnectsMoved(st, ApplyJob(st, t, Connect), t, st.threads[t]);
  }

  lemma JobAccounts(st: State, t: ThreadId, e: JobStep)
    requires Shape(st) && Accounts(st) && AtJob(st, t, e) && JobOk(st, st.threads[t].job)
    ensures Accounts(ApplyJob(st, t, e))
  {
    if e.Connect? {
      ConnectAccounts(st, t);
    } else {
      JobTallies(st, t, e);
      JobDisconnects(st, t, e);
      JobQuiet(st, t, e);
    }
  }

  // ----- environment -----

  lemma NewThreadAccounts(st: State, t: ThreadId)
    requires Accounts(st) && t !in st.threads
    ensures Accounts(ApplyEnv(st, NewThread(t)))
  {
    var th := Thread(Idle, NoCall);
    CountUpdate(st.threads, t, th, AwaitingRequest());
    CountUpdate(st.threads, t, th, AwaitingDispatch());
    CountUpdate(st.threads, t, th, InFailure());
    forall s | s in st.sessions
      ensures Count(st.threads[t := th], BuildsDisconnect(s)) == Count(st.threads, BuildsDisconnect(s))
    {
      CountUpdate(st.threads, t, th, BuildsDisconnect(s));
    }
  }

  /** No thread builds a disconnect context for a session that does not exist yet. */
  lemma NewSessionDisconnects(st: State, s: SessionId)
    requires Shape(st) && Threads(st) && Disconnects(st) && s !in st.sessions
    ensures Disconnects(ApplyEnv(st, NewSession(s)))
  {
    forall t | t in st.threads
      ensures !BuildsDisconnect(s)(st.threads[t])
    {
      assert ThreadOk(st, st.threads[t]);
    }
    CountNone(st.threads, BuildsDisconnect(s));
  }

  lemma NewSessionAccounts(st: State, s: SessionId)
    requires Shape(st) && Threads(st) && Accounts(st) && s !in st.sessions
    ensures Accounts(ApplyEnv(st, NewSession(s)))
  {
    NewSessionRefs(st, s);
    NewSessionDisconnects(st, s);
  }

  lemma ReferenceAccounts(st: State, e: EnvStep)
    requires Pools(st) && Tallies(st) && Disconnects(st) && !e.NewSession? && !e.NewThread?
    requires EnvEnabled(st, e) && !EnvFaults(st, e)
    ensures Pools(ApplyEnv(st, e)) && Tallies(ApplyEnv(st, e)) && Disconnects(ApplyEnv(st, e))
  {
  }

  lemma EnvAccounts(st: State, e: EnvStep)
    requires Shape(st) && Threads(st) && Accounts(st) && EnvEnabled(st, e) && !EnvFaults(st, e)
    ensures Accounts(ApplyEnv(st, e))
  {
    match e
    case NewSession(s) => NewSessionAccounts(st, s);
    case NewThread(t) => NewThreadAccounts(st, t);
    case TakeRef(r, s) =>
      TakeRefRefs(st, r, s);
      ReferenceAccounts(st, e);
    case DropRef(r) =>
      DropRefRefs(st, r);
      ReferenceAccounts(st, e);
    case ClosePort => ReferenceAccounts(st, e);
  }

  lemma CallAccounts(st: State, t: ThreadId, e: CallStep)
    requires Shape(st) && Accounts(st) && AtCall(st, t, e) && ThreadOk(st, st.threads[t])
    ensures Accounts(ApplyCall(st, t, e))
  {
    match e
    case Exchange => ExchangeAccounts(st, t);
    case Construct(c, wild) => ConstructAccounts(st, t, c, wild);
    case Submit(answer) => SubmitAccounts(st, t, answer);
    case Release => ReleaseAccounts(st, t);
    case Free => FreeAccounts(st, t);
  }

  lemma EnvCountsFit(st: State, e: EnvStep)
    requires CountsFit(st) && EnvEnabled(st, e) && !EnvFaults(st, e)
    ensures CountsFit(ApplyEnv(st, e))
  {
  }

  lemma ConnectCountsFit(st: State, t: ThreadId)
    requires CountsFit(st) && AtJob(st, t, Connect)
    ensures CountsFit(ApplyJob(st, t, Connect))
  {
  }

  lemma ConstructCountsFit(st: State, t: ThreadId, c: CtxId, wild: bool)
    requires CountsFit(st) && AtCall(st, t, Construct(c, wild))
    ensures CountsFit(ApplyConstruct(st, t, c, wild))
  {
  }

  lemma ReleaseCountsFit(st: State, t: ThreadId)
    requires CountsFit(st) && AtCall(st, t, Release)
    ensures CountsFit(ApplyRelease(st, t))
  {
  }

  lemma CallCountsFit(st: State, t: ThreadId, e: CallStep)
    requires CountsFit(st) && AtCall(st, t, e)
    ensures CountsFit(ApplyCall(st, t, e))
  {
    match e
    case Exchange => assert ApplyCall(st, t, e) == ApplyExchange(st, t);
    case Construct(c, wild) => ConstructCountsFit(st, t, c, wild);
    case Submit(answer) => assert ApplyCall(st, t, e) == ApplySubmit(st, t, answer);
    case Release => ReleaseCountsFit(st, t);
    case Free => assert ApplyCall(st, t, e) == ApplyFree(st, t);
  }

  /** The 32-bit counters stay in range: AddRef and ReleaseRef assert it. */
  lemma CountsStayFit(st: State, e: Step)
    requires CountsFit(st) && Enabled(st, e) && !Faults(st, e)
    ensures CountsFit(Apply(st, e))
  {
    match e
    case Env(env) => EnvCountsFit(st, env);
    case OnJob(t, j) => if j.Connect? { ConnectCountsFit(st, t); } else { JobQuiet(st, t, j); }
    case OnCall(t, c) => CallCountsFit(st, t, c);
  }

  /** Every step keeps the whole invariant. */
  lemma StepKeepsInv(st: State, e: Step)
    requires Inv(st) && Enabled(st, e) && !Faults(st, e)
    ensures Inv(Apply(st, e))
  {
    CountsStayFit(st, e);
    match e
    case Env(env) =>
      if env.NewThread? { NewThreadStructure(st, env.t); } else { ReferenceStructure(st, env); }
      EnvAccounts(st, env);
    case OnJob(t, j) =>
      JobStructure(st, t, j);
      JobAccounts(st, t, j);
    case OnCall(t, c) =>
      CallStructure(st, t, c);
      CallAccounts(st, t, c);
  }
}
