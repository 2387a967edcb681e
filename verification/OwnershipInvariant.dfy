/** The invariant of the ownership protocol, and exactly which steps can fault under it. */
module OwnershipInvariant {
  import opened Counting
  import opened IoContexts
  import opened Ownership

  // ----- who owns what -----

  predicate JobHasCtx(job: Job) {
    job.Classifying? || job.Failing? || job.Dispatching?
  }

  predicate CallHasCtx(call: Call) {
    call.Submitting? || call.Releasing? || call.Freeing?
  }

  function JobCtx(job: Job): set<CtxId> {
    if JobHasCtx(job) then {job.ctx} else {}
  }

  function CallCtx(call: Call): set<CtxId> {
    if CallHasCtx(call) then {call.ctx} else {}
  }

  /** The contexts only this thread may touch. */
  function Owned(th: Thread): set<CtxId> {
    JobCtx(th.job) + CallCtx(th.call)
  }

  // ----- the invariant -----

  ghost predicate Shape(st: State) {
    && (forall k: ContextClass :: k in st.pools)
    && (forall r :: r in st.outside ==> st.outside[r] in st.sessions)
    && (forall c :: c in st.heap ==>
          && st.heap[c].session in st.sessions && st.heap[c].ioType == ConstructorTag(st.heap[c].cls)
          && Offers(st.heap[c].cls, st.heap[c].offered))
    && st.heap.Keys !! st.freed.Keys
  }

  /** Every context is posted at most once, and what is posted is live and unreleased. */
  ghost predicate Port(st: State) {
    && st.posts == st.posted + st.dequeues
    && (forall c :: st.posts[c] <= 1)
    && (forall c :: c in st.posted ==> c in st.heap && !st.heap[c].released)
    && (forall c :: c in st.posts ==> c in st.heap || c in st.freed)
  }

  ghost predicate JobCtxOk(st: State, c: CtxId, s: SessionId) {
    c in st.heap && c !in st.posted && c in st.posts && !st.heap[c].released && st.heap[c].session == s
  }

  /** The job's own context is live, unreleased and belongs to the session in the local `remote`. */
  ghost predicate JobOk(st: State, job: Job) {
    match job
    case Idle => true
    case Holding(s, _) => s in st.sessions
    case Classifying(c, s, failed, transfer) =>
      && JobCtxOk(st, c, s)
      && (transfer <==> st.heap[c].cls == SendContext || st.heap[c].cls == RecvContext)
      && (st.heap[c].cls == RecvContext ==> failed)
    case Failing(c, s) => JobCtxOk(st, c, s) && (st.heap[c].cls == SendContext || st.heap[c].cls == RecvContext)
    case Dispatching(c, s, _) => JobCtxOk(st, c, s) && st.heap[c].cls != RecvContext
    case Ending(_) => true
  }

  ghost predicate CallCtxOk(st: State, c: CtxId, released: bool) {
    c in st.heap && c !in st.posted && st.heap[c].released == released
  }

  /** A context deleted by the call that built it was never posted. */
  ghost predicate AfterOk(st: State, pin: Option<SessionId>, c: CtxId, after: After) {
    && (after.ThenDisconnect? ==> pin == Some(after.session))
    && (after != EndJob ==> c !in st.posts)
  }

  /** The context of a call is live, is released exactly when it is about to be freed, and a
      call that will touch a session again runs in a job that works on that session. */
  ghost predicate CallOk(st: State, pin: Option<SessionId>, call: Call) {
    match call
    case NoCall => true
    case Exchanging(s) => pin == Some(s)
    case Constructing(s, cls, len) => pin == Some(s) && Offers(cls, len)
    case Submitting(c) => CallCtxOk(st, c, false) && c !in st.posts && pin == Some(st.heap[c].session)
    case Releasing(c, after) => CallCtxOk(st, c, false) && AfterOk(st, pin, c, after)
    case Freeing(c, after) => CallCtxOk(st, c, true) && AfterOk(st, pin, c, after)
  }

  /** Which calls can run in which jobs. */
  predicate Fits(job: Job, call: Call) {
    && (job.Idle? || job.Classifying? ==> call == NoCall)
    && (job.Ending? <==> (call.Releasing? || call.Freeing?) && call.after == EndJob)
    && (JobHasCtx(job) && CallHasCtx(call) ==> job.ctx != call.ctx)
  }

  ghost predicate ThreadOk(st: State, th: Thread) {
    JobOk(st, th.job) && CallOk(st, Pinned(th.job), th.call) && Fits(th.job, th.call)
  }

  ghost predicate Apart(a: Thread, b: Thread) {
    Owned(a) !! Owned(b)
  }

  ghost predicate Threads(st: State) {
    && (forall t :: t in st.threads ==> ThreadOk(st, st.threads[t]))
    && (forall t, u :: t in st.threads && u in st.threads && t != u ==> Apart(st.threads[t], st.threads[u]))
  }

  ghost predicate IsFreeing(st: State, t: ThreadId, c: CtxId) {
    t in st.threads && st.threads[t].call.Freeing? && st.threads[t].call.ctx == c
  }

  /** A released context that is still live has a thread about to free it. */
  ghost predicate ReleasedHeld(st: State) {
    forall c :: c in st.heap && st.heap[c].released ==> exists t :: IsFreeing(st, t, c)
  }

  // ----- what is counted -----

  function IsSession(s: SessionId): SessionId -> bool { x => x == s }
  function Unreleased(s: SessionId): Context -> bool { (x: Context) => x.session == s && !x.released }
  function OfClass(k: ContextClass): Context -> bool { (x: Context) => x.cls == k }
  function Same(k: ContextClass): ContextClass -> bool { x => x == k }
  function AwaitingRequest(): Thread -> bool { (th: Thread) => th.job.Classifying? && th.job.failed && th.job.transfer }
  function AwaitingDispatch(): Thread -> bool { (th: Thread) => th.job.Classifying? && !(th.job.failed && th.job.transfer) }
  function InFailure(): Thread -> bool { (th: Thread) => th.job.Failing? || th.job == Ending(true) }
  function BuildsDisconnect(s: SessionId): Thread -> bool {
    (th: Thread) => th.call.Constructing? && th.call.session == s && th.call.cls == DisconnectContext
  }

  ghost predicate Refs(st: State) {
    forall s :: s in st.sessions ==>
      st.sessions[s].refCount == Count(st.outside, IsSession(s)) + Count(st.heap, Unreleased(s))
  }

  ghost predicate PoolOk(p: Pool, heap: map<CtxId, Context>, freed: map<CtxId, ContextClass>, k: ContextClass) {
    && p.inUse == Count(heap, OfClass(k)) && p.deleted == Count(freed, Same(k))
    && p.built == p.inUse + p.deleted && p.inUse <= p.total
  }

  ghost predicate Pools(st: State) {
    forall k :: k in st.pools ==> PoolOk(st.pools[k], st.heap, st.freed, k)
  }

  ghost predicate Tallies(st: State) {
    && st.tally.failures == st.tally.requests + Count(st.threads, AwaitingRequest())
    && st.tally.requests == st.tally.deletions + Count(st.threads, InFailure())
    && |st.dequeues| == st.tally.failures + st.tally.dispatches + Count(st.threads, AwaitingDispatch())
  }

  ghost predicate Disconnects(st: State) {
    forall s :: s in st.sessions ==>
      st.sessions[s].connects ==
        Weight(st.sessions[s].connected) + st.sessions[s].disconnects + Count(st.threads, BuildsDisconnect(s))
  }

  ghost predicate Structure(st: State) {
    Shape(st) && Port(st) && Threads(st) && ReleasedHeld(st)
  }

  ghost predicate Accounts(st: State) {
    Refs(st) && Pools(st) && Tallies(st) && Disconnects(st)
  }

  /** Every reference count fits the 32-bit counter. */
  ghost predicate CountsFit(st: State) {
    forall s :: s in st.sessions ==> 0 <= st.sessions[s].refCount <= MAX_LONG
  }

  ghost predicate Inv(st: State) {
    Structure(st) && Accounts(st) && CountsFit(st)
  }

  // ----- live sessions -----

  /** A context that was not released keeps its session alive. */
  lemma UnreleasedAlive(st: State, c: CtxId)
    requires Shape(st) && Refs(st) && c in st.heap && !st.heap[c].released
    ensures !Dead(st, st.heap[c].session)
  {
    CountPositive(st.heap, c, Unreleased(st.heap[c].session));
  }

  lemma OutsideAlive(st: State, r: RefId)
    requires Shape(st) && Refs(st) && r in st.outside
    ensures !Dead(st, st.outside[r])
  {
    CountPositive(st.outside, r, IsSession(st.outside[r]));
  }

  lemma PinnedAlive(st: State, job: Job)
    requires Shape(st) && Refs(st) && JobOk(st, job) && JobHasCtx(job)
    ensures !Dead(st, job.session)
  {
    UnreleasedAlive(st, job.ctx);
  }

  /** No outside reference to the session is left, and no context of it that was not released. */
  ghost predicate Unreferenced(st: State, s: SessionId) {
    && (forall r :: r in st.outside ==> st.outside[r] != s)
    && (forall c :: c in st.heap ==> st.heap[c].session != s || st.heap[c].released)
  }

  /** A session is dead exactly when nothing refers to it. */
  lemma DeadExactly(st: State, s: SessionId)
    requires Refs(st) && s in st.sessions
    ensures Dead(st, s) <==> Unreferenced(st, s)
  {
    if Unreferenced(st, s) {
      CountNone(st.outside, IsSession(s));
      CountNone(st.heap, Unreleased(s));
    } else if r :| r in st.outside && st.outside[r] == s {
      CountPositive(st.outside, r, IsSession(s));
    } else {
      var c :| c in st.heap && st.heap[c].session == s && !st.heap[c].released;
      CountPositive(st.heap, c, Unreleased(s));
    }
  }

  // ----- exactly which steps fault -----

  /** What can go wrong, each visible before the step: one session collects more references than a
      32-bit count can hold, a class has all its slots in use and its free list ends in a wild word,
      a thread that kept a pointer calls into a session nothing refers to any more, or a worker waits
      on the closed port and gets no timeout. */
  ghost predicate Hazard(st: State, e: Step) {
    match e
    case Env(env) => env.TakeRef? && env.s in st.sessions && st.sessions[env.s].refCount == MAX_LONG
    case OnJob(t, j) => t in st.threads && JobHazard(st, st.threads[t], j)
    case OnCall(t, c) => t in st.threads && CallHazard(st, st.threads[t], c)
  }

  ghost predicate JobHazard(st: State, th: Thread, e: JobStep) {
    || ((e.Connect? || e.Enter? || e.Leave?) && Lost(st, th))
    || (e.DequeueNull? && !(CompletionFailed(e.ret, e.transferred) && e.error == WaitTimeout))
  }

  ghost predicate CallHazard(st: State, th: Thread, e: CallStep) {
    || ((e.Exchange? || e.Construct?) && Lost(st, th))
    || (e.Construct? && ConstructHazard(st, th.call))
  }

  /** The thread works on a session through a pointer alone. */
  ghost predicate Lost(st: State, th: Thread) {
    th.job.Holding? && Unreferenced(st, th.job.session)
  }

  predicate ConstructHazard(st: State, call: Call) {
    && call.Constructing?
    && (|| (call.session in st.sessions && st.sessions[call.session].refCount == MAX_LONG)
        || (call.cls in st.pools && Exhausted(st.pools[call.cls])))
  }

  /** A thread's session is dead exactly when the thread is lost. */
  lemma LostExactly(st: State, th: Thread)
    requires Shape(st) && Refs(st) && ThreadOk(st, th) && Pinned(th.job).Some?
    ensures Pinned(th.job).value in st.sessions
    ensures Dead(st, Pinned(th.job).value) <==> Lost(st, th)
  {
    if th.job.Holding? {
      DeadExactly(st, th.job.session);
    } else {
      PinnedAlive(st, th.job);
    }
  }

  lemma ReleaseSafe(st: State, call: Call)
    requires Shape(st) && Refs(st) && CallEnabled(st, call, Release)
    requires call.ctx in st.heap && !st.heap[call.ctx].released
    ensures !CallFaults(st, call, Release)
  {
    UnreleasedAlive(st, call.ctx);
  }

  /** The tag is read and the context deleted after ReleaseRef: both are still valid then, and
      the switch picks the class the context was built as. */
  lemma FreeSafe(st: State, call: Call)
    requires Shape(st) && Pools(st) && CallEnabled(st, call, Free) && call.ctx in st.heap
    ensures !CallFaults(st, call, Free)
  {
    CountPositive(st.heap, call.ctx, OfClass(st.heap[call.ctx].cls));
  }

  lemma CallFaultsExactly(st: State, t: ThreadId, e: CallStep)
    requires Shape(st) && Refs(st) && Pools(st) && CountsFit(st) && Enabled(st, OnCall(t, e))
    requires ThreadOk(st, st.threads[t])
    ensures Faults(st, OnCall(t, e)) <==> Hazard(st, OnCall(t, e))
  {
    var th := st.threads[t];
    if e.Exchange? || e.Construct? {
      LostExactly(st, th);
    } else if e.Release? {
      ReleaseSafe(st, th.call);
    } else if e.Free? {
      FreeSafe(st, th.call);
    }
  }

  lemma JobFaultsExactly(st: State, t: ThreadId, e: JobStep)
    requires Shape(st) && Port(st) && Refs(st) && Enabled(st, OnJob(t, e))
    requires ThreadOk(st, st.threads[t])
    ensures Faults(st, OnJob(t, e)) <==> Hazard(st, OnJob(t, e))
  {
    var th := st.threads[t];
    if e.Connect? || e.Enter? || e.Leave? {
      LostExactly(st, th);
    }
  }

  /** A step faults if and only if it is one of the hazards. */
  lemma FaultsExactly(st: State, e: Step)
    requires Inv(st) && Enabled(st, e)
    ensures Faults(st, e) <==> Hazard(st, e)
  {
    match e
    case Env(env) =>
      if env.DropRef? {
        OutsideAlive(st, env.r);
      }
    case OnJob(t, j) => JobFaultsExactly(st, t, j);
    case OnCall(t, c) => CallFaultsExactly(st, t, c);
  }
}
