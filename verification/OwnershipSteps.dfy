/** Every step keeps the invariant of the ownership protocol. */
module OwnershipSteps {
  import opened Counting
  import opened IoContexts
  import opened Ownership
  import opened OwnershipInvariant

  // ----- one thread moves, the others keep what they rely on -----

  /** From `st` to `st'` contexts and postings changed only at the contexts in `k`. */
  ghost predicate OnlyTouches(st: State, st': State, k: set<CtxId>) {
    && (forall c :: c in st.heap && c !in k ==> c in st'.heap && st'.heap[c] == st.heap[c])
    && (forall c :: c !in k ==> (c in st'.posted ==> c in st.posted) && (c in st'.posts <==> c in st.posts))
  }

  lemma JobFramed(st: State, st': State, job: Job, k: set<CtxId>)
    requires JobOk(st, job) && OnlyTouches(st, st', k) && k !! JobCtx(job)
    requires st.sessions.Keys <= st'.sessions.Keys
    ensures JobOk(st', job)
  {
  }

  lemma CallFramed(st: State, st': State, pin: Option<SessionId>, call: Call, k: set<CtxId>)
    requires CallOk(st, pin, call) && OnlyTouches(st, st', k) && k !! CallCtx(call)
    ensures CallOk(st', pin, call)
  {
  }

  /** Contexts `k` that no other thread owns. */
  ghost predicate Exclusive(st: State, t: ThreadId, k: set<CtxId>) {
    forall u :: u in st.threads && u != t ==> k !! Owned(st.threads[u])
  }

  lemma OtherFramed(st: State, st': State, th: Thread, k: set<CtxId>)
    requires ThreadOk(st, th) && OnlyTouches(st, st', k) && k !! Owned(th)
    requires st.sessions.Keys <= st'.sessions.Keys
    ensures ThreadOk(st', th)
  {
    JobFramed(st, st', th.job, k);
    CallFramed(st, st', Pinned(th.job), th.call, k);
  }

  lemma ThreadsMoved(st: State, st': State, t: ThreadId, th': Thread, k: set<CtxId>)
    requires Threads(st) && t in st.threads && st'.threads == st.threads[t := th']
    requires st.sessions.Keys <= st'.sessions.Keys && OnlyTouches(st, st', k) && Exclusive(st, t, k)
    requires ThreadOk(st', th') && Owned(th') <= Owned(st.threads[t]) + k
    ensures Threads(st')
  {
    forall u | u in st.threads && u != t
      ensures ThreadOk(st', st.threads[u]) && Apart(th', st.threads[u]) && Apart(st.threads[u], th')
    {
      OtherFramed(st, st', st.threads[u], k);
      assert Apart(st.threads[t], st.threads[u]);
    }
  }

  lemma OwnedExclusive(st: State, t: ThreadId, c: CtxId)
    requires Threads(st) && t in st.threads && c in Owned(st.threads[t])
    ensures Exclusive(st, t, {c})
  {
    forall u | u in st.threads && u != t
      ensures {c} !! Owned(st.threads[u])
    {
      assert Apart(st.threads[t], st.threads[u]);
    }
  }

  lemma UnownedExclusive(st: State, t: ThreadId, c: CtxId)
    requires Threads(st) && (c !in st.heap || c in st.posted)
    ensures Exclusive(st, t, {c})
  {
    forall u | u in st.threads && u != t
      ensures {c} !! Owned(st.threads[u])
    {
      assert ThreadOk(st, st.threads[u]);
    }
  }

  /** The owners of released contexts survive the move of a thread that was not about to free. */
  lemma ReleasedKept(st: State, st': State, t: ThreadId, th': Thread)
    requires ReleasedHeld(st) && t in st.threads && !st.threads[t].call.Freeing?
    requires st'.threads == st.threads[t := th']
    requires forall c :: c in st'.heap && st'.heap[c].released ==> c in st.heap && st.heap[c].released
    ensures ReleasedHeld(st')
  {
    forall c | c in st'.heap && st'.heap[c].released
      ensures exists u :: IsFreeing(st', u, c)
    {
      var u :| IsFreeing(st, u, c);
      assert IsFreeing(st', u, c);
    }
  }

  /** The owners of released contexts survive a step in which no thread leaves Freeing. */
  lemma ReleasedStill(st: State, st': State)
    requires ReleasedHeld(st)
    requires forall t :: t in st.threads && st.threads[t].call.Freeing? ==>
               t in st'.threads && st'.threads[t] == st.threads[t]
    requires forall c :: c in st'.heap && st'.heap[c].released ==> c in st.heap && st.heap[c].released
    ensures ReleasedHeld(st')
  {
    forall c | c in st'.heap && st'.heap[c].released
      ensures exists u :: IsFreeing(st', u, c)
    {
      var u :| IsFreeing(st, u, c);
      assert IsFreeing(st', u, c);
    }
  }

  // ----- calls -----

  /** Where thread `t` is about to take call step `e` without a fault. */
  predicate AtCall(st: State, t: ThreadId, e: CallStep) {
    t in st.threads && CallEnabled(st, st.threads[t].call, e) && !CallFaults(st, st.threads[t].call, e)
  }

  lemma ExchangeSelf(st: State, t: ThreadId)
    requires AtCall(st, t, Exchange) && ThreadOk(st, st.threads[t])
    ensures var st' := ApplyExchange(st, t);
      ThreadOk(st', st'.threads[t]) && OnlyTouches(st, st', {})
  {
    JobFramed(st, ApplyExchange(st, t), st.threads[t].job, {});
  }

  lemma ConstructSelf(st: State, t: ThreadId, c: CtxId, wild: bool)
    requires AtCall(st, t, Construct(c, wild)) && ThreadOk(st, st.threads[t])
    requires c !in st.posts && c !in st.posted
    ensures var st' := ApplyConstruct(st, t, c, wild);
      ThreadOk(st', st'.threads[t]) && OnlyTouches(st, st', {c})
  {
    JobFramed(st, ApplyConstruct(st, t, c, wild), st.threads[t].job, {c});
  }

  lemma SubmitTouches(st: State, t: ThreadId, answer: Answer)
    requires AtCall(st, t, Submit(answer))
    ensures OnlyTouches(st, ApplySubmit(st, t, answer), {st.threads[t].call.ctx})
  {
    var c := st.threads[t].call.ctx;
    assert forall d :: d != c ==> (st.posted + multiset{c})[d] == st.posted[d];
    assert forall d :: d != c ==> (st.posts + multiset{c})[d] == st.posts[d];
  }

  lemma AcceptedSelf(st: State, t: ThreadId)
    requires AtCall(st, t, Submit(Accepted)) && ThreadOk(st, st.threads[t])
    ensures ThreadOk(ApplySubmit(st, t, Accepted), Thread(st.threads[t].job, NoCall))
  {
    SubmitTouches(st, t, Accepted);
    JobFramed(st, ApplySubmit(st, t, Accepted), st.threads[t].job, {st.threads[t].call.ctx});
  }

  lemma UnsentSelf(st: State, t: ThreadId, answer: Answer)
    requires AtCall(st, t, Submit(answer)) && answer != Accepted && ThreadOk(st, st.threads[t])
    ensures ThreadOk(ApplySubmit(st, t, answer), ApplySubmit(st, t, answer).threads[t])
  {
    JobFramed(st, ApplySubmit(st, t, answer), st.threads[t].job, {});
  }

  lemma ReleaseSelf(st: State, t: ThreadId)
    requires AtCall(st, t, Release) && ThreadOk(st, st.threads[t])
    ensures var st' := ApplyRelease(st, t);
      ThreadOk(st', st'.threads[t]) && OnlyTouches(st, st', {st.threads[t].call.ctx})
  {
    JobFramed(st, ApplyRelease(st, t), st.threads[t].job, {st.threads[t].call.ctx});
  }

  lemma FreeSelf(st: State, t: ThreadId)
    requires AtCall(st, t, Free) && ThreadOk(st, st.threads[t])
    ensures var st' := ApplyFree(st, t);
      ThreadOk(st', st'.threads[t]) && OnlyTouches(st, st', {st.threads[t].call.ctx})
  {
    JobFramed(st, ApplyFree(st, t), st.threads[t].job, {st.threads[t].call.ctx});
  }

  // ----- steps that leave contexts, pools, references and the port alone -----

  lemma QuietMove(st: State, st': State, t: ThreadId, th': Thread)
    requires Structure(st) && t in st.threads && !st.threads[t].call.Freeing?
    requires st' == st.(sessions := st'.sessions, threads := st.threads[t := th'], tally := st'.tally)
    requires st.sessions.Keys <= st'.sessions.Keys
    requires ThreadOk(st', th') && Owned(th') <= Owned(st.threads[t])
    ensures Structure(st')
  {
    ThreadsMoved(st, st', t, th', {});
    ReleasedKept(st, st', t, st'.threads[t]);
  }

  lemma ExchangeStructure(st: State, t: ThreadId)
    requires Structure(st) && AtCall(st, t, Exchange)
    ensures Structure(ApplyExchange(st, t))
  {
    var st' := ApplyExchange(st, t);
    ExchangeSelf(st, t);
    QuietMove(st, st', t, st'.threads[t]);
  }

  // ----- steps that change one context -----

  lemma ConstructPort(st: State, t: ThreadId, c: CtxId, wild: bool)
    requires Shape(st) && Port(st) && AtCall(st, t, Construct(c, wild)) && ThreadOk(st, st.threads[t])
    ensures Shape(ApplyConstruct(st, t, c, wild)) && Port(ApplyConstruct(st, t, c, wild))
  {
  }

  lemma ConstructStructure(st: State, t: ThreadId, c: CtxId, wild: bool)
    requires Structure(st) && AtCall(st, t, Construct(c, wild))
    ensures Structure(ApplyConstruct(st, t, c, wild))
  {
    var st' := ApplyConstruct(st, t, c, wild);
    ConstructPort(st, t, c, wild);
    ConstructSelf(st, t, c, wild);
    UnownedExclusive(st, t, c);
    ThreadsMoved(st, st', t, st'.threads[t], {c});
    ReleasedKept(st, st', t, st'.threads[t]);
  }

  lemma AcceptedPort(st: State, t: ThreadId)
    requires Shape(st) && Port(st) && AtCall(st, t, Submit(Accepted)) && ThreadOk(st, st.threads[t])
    ensures Shape(ApplySubmit(st, t, Accepted)) && Port(ApplySubmit(st, t, Accepted))
  {
  }

  lemma AcceptedStructure(st: State, t: ThreadId)
    requires Structure(st) && AtCall(st, t, Submit(Accepted))
    ensures Structure(ApplySubmit(st, t, Accepted))
  {
    var st', c := ApplySubmit(st, t, Accepted), st.threads[t].call.ctx;
    AcceptedPort(st, t);
    AcceptedSelf(st, t);
    SubmitTouches(st, t, Accepted);
    OwnedExclusive(st, t, c);
    ThreadsMoved(st, st', t, st'.threads[t], {c});
    ReleasedKept(st, st', t, st'.threads[t]);
  }

  lemma UnsentStructure(st: State, t: ThreadId, answer: Answer)
    requires Structure(st) && AtCall(st, t, Submit(answer)) && answer != Accepted
    ensures Structure(ApplySubmit(st, t, answer))
  {
    var st' := ApplySubmit(st, t, answer);
    UnsentSelf(st, t, answer);
    QuietMove(st, st', t, st'.threads[t]);
  }

  lemma ReleaseShape(st: State, t: ThreadId)
    requires Shape(st) && AtCall(st, t, Release)
    ensures Shape(ApplyRelease(st, t))
  {
  }

  lemma ReleasePort(st: State, t: ThreadId)
    requires Port(st) && AtCall(st, t, Release) && ThreadOk(st, st.threads[t])
    ensures Port(ApplyRelease(st, t))
  {
  }

  lemma ReleaseReleased(st: State, t: ThreadId)
    requires ReleasedHeld(st) && AtCall(st, t, Release)
    ensures ReleasedHeld(ApplyRelease(st, t))
  {
    var st', c := ApplyRelease(st, t), st.threads[t].call.ctx;
    forall d | d in st'.heap && st'.heap[d].released
      ensures exists u :: IsFreeing(st', u, d)
    {
      if d == c {
        assert IsFreeing(st', t, c);
      } else {
        var u :| IsFreeing(st, u, d);
        assert IsFreeing(st', u, d);
      }
    }
  }

  lemma ReleaseStructure(st: State, t: ThreadId)
    requires Structure(st) && AtCall(st, t, Release)
    ensures Structure(ApplyRelease(st, t))
  {
    var st', c := ApplyRelease(st, t), st.threads[t].call.ctx;
    ReleaseShape(st, t);
    ReleasePort(st, t);
    ReleaseSelf(st, t);
    OwnedExclusive(st, t, c);
    ThreadsMoved(st, st', t, st'.threads[t], {c});
    ReleaseReleased(st, t);
  }

  lemma FreeShape(st: State, t: ThreadId)
    requires Shape(st) && AtCall(st, t, Free)
    ensures Shape(ApplyFree(st, t))
  {
  }

  lemma FreePort(st: State, t: ThreadId)
    requires Port(st) && AtCall(st, t, Free) && ThreadOk(st, st.threads[t])
    ensures Port(ApplyFree(st, t))
  {
  }

  lemma FreeReleased(st: State, t: ThreadId)
    requires ReleasedHeld(st) && AtCall(st, t, Free)
    ensures ReleasedHeld(ApplyFree(st, t))
  {
    var st' := ApplyFree(st, t);
    forall d | d in st'.heap && st'.heap[d].released
      ensures exists u :: IsFreeing(st', u, d)
    {
      var u :| IsFreeing(st, u, d);
      assert IsFreeing(st', u, d);
    }
  }

  lemma FreeThreads(st: State, t: ThreadId)
    requires Threads(st) && AtCall(st, t, Free)
    ensures Threads(ApplyFree(st, t))
  {
    var st', c := ApplyFree(st, t), st.threads[t].call.ctx;
    FreeSelf(st, t);
    OwnedExclusive(st, t, c);
    ThreadsMoved(st, st', t, st'.threads[t], {c});
  }

  lemma FreeStructure(st: State, t: ThreadId)
    requires Structure(st) && AtCall(st, t, Free)
    ensures Structure(ApplyFree(st, t))
  {
    FreeShape(st, t);
    FreePort(st, t);
    FreeThreads(st, t);
    FreeReleased(st, t);
  }

  // ----- jobs -----

  predicate AtJob(st: State, t: ThreadId, e: JobStep) {
    t in st.threads && JobEnabled(st, st.threads[t], e) && !JobFaults(st, st.threads[t], e)
  }

  lemma BorrowStructure(st: State, t: ThreadId, r: RefId)
    requires Structure(st) && AtJob(st, t, Borrow(r))
    ensures Structure(ApplyJob(st, t, Borrow(r)))
  {
    QuietMove(st, ApplyJob(st, t, Borrow(r)), t, Thread(Holding(st.outside[r], false), NoCall));
  }

  lemma GiveBackStructure(st: State, t: ThreadId)
    requires Structure(st) && AtJob(st, t, GiveBack)
    ensures Structure(ApplyJob(st, t, GiveBack))
  {
    QuietMove(st, ApplyJob(st, t, GiveBack), t, Thread(Idle, NoCall));
  }

  lemma ConnectStructure(st: State, t: ThreadId)
    requires Structure(st) && AtJob(st, t, Connect)
    ensures Structure(ApplyJob(st, t, Connect))
  {
    var st' := ApplyJob(st, t, Connect);
    JobFramed(st, st', st.threads[t].job, {});
    assert st.threads == st.threads[t := st.threads[t]];
    QuietMove(st, st', t, st.threads[t]);
  }

  lemma EnterSelf(st: State, t: ThreadId, op: Operation)
    requires AtJob(st, t, Enter(op)) && ThreadOk(st, st.threads[t])
    ensures var st' := ApplyJob(st, t, Enter(op));
      ThreadOk(st', st'.threads[t]) && Owned(st'.threads[t]) <= Owned(st.threads[t])
  {
    JobFramed(st, ApplyJob(st, t, Enter(op)), st.threads[t].job, {});
  }

  lemma EnterStructure(st: State, t: ThreadId, op: Operation)
    requires Structure(st) && AtJob(st, t, Enter(op))
    ensures Structure(ApplyJob(st, t, Enter(op)))
  {
    var st' := ApplyJob(st, t, Enter(op));
    EnterSelf(st, t, op);
    QuietMove(st, st', t, st'.threads[t]);
  }

  lemma LeaveStructure(st: State, t: ThreadId)
    requires Structure(st) && AtJob(st, t, Leave)
    ensures Structure(ApplyJob(st, t, Leave))
  {
    var st' := ApplyJob(st, t, Leave);
    JobFramed(st, st', st.threads[t].job, {});
    QuietMove(st, st', t, st'.threads[t]);
  }

  lemma ClassifySelf(st: State, t: ThreadId)
    requires Shape(st) && AtJob(st, t, Classify) && ThreadOk(st, st.threads[t])
    ensures var st' := ApplyClassify(st, t);
      ThreadOk(st', st'.threads[t]) && Owned(st'.threads[t]) <= Owned(st.threads[t])
  {
  }

  lemma ClassifyStructure(st: State, t: ThreadId)
    requires Structure(st) && AtJob(st, t, Classify)
    ensures Structure(ApplyJob(st, t, Classify))
  {
    var st' := ApplyClassify(st, t);
    ClassifySelf(st, t);
    QuietMove(st, st', t, st'.threads[t]);
  }

  lemma FailReturnStructure(st: State, t: ThreadId)
    requires Structure(st) && AtJob(st, t, FailReturn)
    ensures Structure(ApplyJob(st, t, FailReturn))
  {
    var st' := ApplyJob(st, t, FailReturn);
    assert ThreadOk(st, st.threads[t]);
    QuietMove(st, st', t, st'.threads[t]);
  }

  lemma EndDispatchSelf(st: State, t: ThreadId, delete: bool)
    requires AtJob(st, t, EndDispatch(delete)) && ThreadOk(st, st.threads[t])
    ensures var st' := ApplyJob(st, t, EndDispatch(delete));
      ThreadOk(st', st'.threads[t]) && Owned(st'.threads[t]) <= Owned(st.threads[t])
  {
  }

  lemma EndDispatchStructure(st: State, t: ThreadId, delete: bool)
    requires Structure(st) && AtJob(st, t, EndDispatch(delete))
    ensures Structure(ApplyJob(st, t, EndDispatch(delete)))
  {
    var st' := ApplyJob(st, t, EndDispatch(delete));
    EndDispatchSelf(st, t, delete);
    QuietMove(st, st', t, st'.threads[t]);
  }

  lemma DequeuePort(st: State, t: ThreadId, c: CtxId, ret: bool, transferred: nat)
    requires Shape(st) && Port(st) && AtJob(st, t, Dequeue(c, ret, transferred))
    ensures var st' := ApplyDequeue(st, t, c, ret, transferred);
      Shape(st') && Port(st') && OnlyTouches(st, st', {c}) && c !in st'.posted
  {
    var st' := ApplyDequeue(st, t, c, ret, transferred);
    assert st.posts[c] == st.posted[c] + st.dequeues[c];
    assert forall d :: d != c ==> st'.posted[d] == st.posted[d];
    assert st.posted == st'.posted + multiset{c};
  }

  lemma DequeueSelf(st: State, t: ThreadId, c: CtxId, ret: bool, transferred: nat)
    requires Shape(st) && Port(st) && AtJob(st, t, Dequeue(c, ret, transferred))
    requires c !in ApplyDequeue(st, t, c, ret, transferred).posted
    ensures ThreadOk(ApplyDequeue(st, t, c, ret, transferred), ApplyDequeue(st, t, c, ret, transferred).threads[t])
  {
    assert c in st.posts;
  }

  lemma DequeueStructure(st: State, t: ThreadId, c: CtxId, ret: bool, transferred: nat)
    requires Structure(st) && AtJob(st, t, Dequeue(c, ret, transferred))
    ensures Structure(ApplyJob(st, t, Dequeue(c, ret, transferred)))
  {
    var st' := ApplyDequeue(st, t, c, ret, transferred);
    DequeuePort(st, t, c, ret, transferred);
    DequeueSelf(st, t, c, ret, transferred);
    UnownedExclusive(st, t, c);
    ThreadsMoved(st, st', t, st'.threads[t], {c});
    ReleasedKept(st, st', t, st'.threads[t]);
  }

  // ----- environment -----

  /** Threads stay as they are when no context changes and no borrowed reference is dropped. */
  lemma ThreadsStill(st: State, st': State)
    requires Threads(st) && st'.threads == st.threads && OnlyTouches(st, st', {})
    requires st.sessions.Keys <= st'.sessions.Keys
    ensures Threads(st')
  {
    forall t | t in st.threads
      ensures ThreadOk(st', st.threads[t])
    {
      OtherFramed(st, st', st.threads[t], {});
    }
  }

  lemma ReferenceStructure(st: State, e: EnvStep)
    requires Structure(st) && EnvEnabled(st, e) && !EnvFaults(st, e) && !e.NewThread?
    ensures Structure(ApplyEnv(st, e))
  {
    ThreadsStill(st, ApplyEnv(st, e));
    ReleasedStill(st, ApplyEnv(st, e));
  }

  lemma NewThreadThreads(st: State, t: ThreadId)
    requires Threads(st) && t !in st.threads
    ensures Threads(ApplyEnv(st, NewThread(t)))
  {
    var st', idle := ApplyEnv(st, NewThread(t)), Thread(Idle, NoCall);
    forall u | u in st.threads
      ensures ThreadOk(st', st.threads[u]) && Apart(idle, st.threads[u]) && Apart(st.threads[u], idle)
    {
      OtherFramed(st, st', st.threads[u], {});
    }
    assert ThreadOk(st', idle);
  }

  lemma NewThreadStructure(st: State, t: ThreadId)
    requires Structure(st) && t !in st.threads
    ensures Structure(ApplyEnv(st, NewThread(t)))
  {
    NewThreadThreads(st, t);
    ReleasedStill(st, ApplyEnv(st, NewThread(t)));
  }

  // ----- all steps -----

  lemma CallStructure(st: State, t: ThreadId, e: CallStep)
    requires Structure(st) && AtCall(st, t, e)
    ensures Structure(ApplyCall(st, t, e))
  {
    match e
    case Exchange => ExchangeStructure(st, t);
    case Construct(c, wild) => ConstructStructure(st, t, c, wild);
    case Submit(answer) => if answer == Accepted { AcceptedStructure(st, t); } else { UnsentStructure(st, t, answer); }
    case Release => ReleaseStructure(st, t);
    case Free => FreeStructure(st, t);
  }

  lemma JobStructure(st: State, t: ThreadId, e: JobStep)
    requires Structure(st) && AtJob(st, t, e)
    ensures Structure(ApplyJob(st, t, e))
  {
    match e
    case Borrow(r) => BorrowStructure(st, t, r);
    case GiveBack => GiveBackStructure(st, t);
    case Connect => ConnectStructure(st, t);
    case Enter(op) => EnterStructure(st, t, op);
    case Leave => LeaveStructure(st, t);
    case Dequeue(c, ret, transferred) => DequeueStructure(st, t, c, ret, transferred);
    case DequeueNull(_, _, _) =>
    case Classify => ClassifyStructure(st, t);
    case FailReturn => FailReturnStructure(st, t);
    case EndDispatch(delete) => EndDispatchStructure(st, t, delete);
  }
}
