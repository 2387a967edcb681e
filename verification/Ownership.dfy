/** Ownership of overlapped I/O contexts and of session references, as a transition system.

    Any number of threads run against any number of sessions and contexts. A step is one
    visible action of one thread: an interlocked operation, a pool allocation or free, a
    submission to Winsock, a dequeue from the completion port. DeleteIoContext is two steps,
    so other threads may run between the release of the reference and the free.

    `Faults` lists what would crash or corrupt the process at a step: a failed CRASH_ASSERT,
    a null, wild or freed context, a session without references. `Enabled` excludes none of
    these. What it does fix is who may call into a session: a thread that found it through an
    outside reference and kept the pointer, whatever became of that reference since, or one
    that handles a completion of that session. */
module Ownership {
  import opened Counting
  import opened IoContexts

  type SessionId = nat
  type RefId = nat
  type CtxId = nat
  type ThreadId = nat

  const MAX_LONG: int := 0x7FFF_FFFF

  /** `connects` and `disconnects` are history: how often the session became connected, and
      how many disconnect contexts were built for it. */
  datatype Session = Session(refCount: int, connected: bool, connects: nat, disconnects: nat)

  /** `offered` is the length of the buffer given to Winsock. `released` is history: DeleteIoContext
      has already called ReleaseRef for this context. */
  datatype Context = Context(session: SessionId, cls: ContextClass, ioType: IoType, offered: nat, released: bool)

  /** One object pool; `built` and `deleted` are history, `inUse` is mCurrentUseCount and `total` is
      mTotalAllocCount. `wild` says that the free list ends in a word that is not null: the loop that
      threads a chunk never writes its last link. */
  datatype Pool = Pool(built: nat, deleted: nat, inUse: int, total: nat, wild: bool)

  const ALLOC_COUNT: nat := 100

  /** No slot is free and the end of the list would be taken for one. */
  predicate Exhausted(p: Pool) {
    p.inUse >= p.total && p.wild
  }

  /** Where a thread is outside session calls. `session` is the local `remote`. `inside` says that the
      thread is in a function that holds the session's send lock and will touch the session once
      more, to raise the pending count and to unlock. `transfer` is history: the completion was that of a send or receive when it was dequeued. */
  datatype Job =
    | Idle
    | Holding(session: SessionId, inside: bool)
    | Classifying(ctx: CtxId, session: SessionId, failed: bool, transfer: bool)
    | Failing(ctx: CtxId, session: SessionId)
    | Dispatching(ctx: CtxId, session: SessionId, inside: bool)
    | Ending(failure: bool)

  /** What follows a DeleteIoContext. */
  datatype After = Back | ThenDisconnect(session: SessionId) | EndJob

  /** Where a thread is inside a session call or DeleteIoContext. */
  datatype Call =
    | NoCall
    | Exchanging(session: SessionId)
    | Constructing(session: SessionId, cls: ContextClass, offered: nat)
    | Submitting(ctx: CtxId)
    | Releasing(ctx: CtxId, after: After)
    | Freeing(ctx: CtxId, after: After)

  datatype Thread = Thread(job: Job, call: Call)

  /** `outside` are the references not owned by a context: the connection's own reference and
      those of threads that work on a session without a completion. `closed` says that Finalize has
      closed the completion port. `posts` and `dequeues` are
      history; `freed` records the class each context was deleted as. */
  datatype State = State(
    sessions: map<SessionId, Session>,
    outside: map<RefId, SessionId>,
    heap: map<CtxId, Context>,
    pools: map<ContextClass, Pool>,
    threads: map<ThreadId, Thread>,
    posted: multiset<CtxId>,
    posts: multiset<CtxId>,
    dequeues: multiset<CtxId>,
    freed: map<CtxId, ContextClass>,
    closed: bool,
    tally: Tally)

  /** Failed transfers dequeued, DR_COMPLETION_ERROR requests made, contexts deleted for them,
      and completions handed to the dispatch. */
  datatype Tally = Tally(failures: nat, requests: nat, deletions: nat, dispatches: nat)

  /** Disconnect is DisconnectRequest, Post a call that builds a context, Visit one that only works under
      the send lock: PostSend, SendCompletion, a FlushSend with nothing to do. */
  datatype Operation = Disconnect | Visit | Post(cls: ContextClass, len: nat)

  /** What becomes of a context a session call has built: Winsock takes it, it is deleted because Winsock
      refuses it, or neither. The last happens to disconnect contexts only: DisconnectRequest as
      written calls nothing, and neither submits nor deletes its context if the last error of the
      thread still is WSA_IO_PENDING. */
  datatype Answer = Accepted | Refused | Leaked

  datatype LastError = WaitTimeout | OtherError

  /** Sessions and threads appear, references outside contexts are taken and dropped, and Finalize
      closes the port. */
  datatype EnvStep =
    | NewSession(s: SessionId)
    | NewThread(t: ThreadId)
    | TakeRef(r: RefId, s: SessionId)
    | DropRef(r: RefId)
    | ClosePort

  /** A step of DoIocpJob, or of a thread that works on a session with a borrowed reference. */
  datatype JobStep =
    | Borrow(r: RefId)
    | GiveBack
    | Connect
    | Enter(op: Operation)
    | Leave
    | Dequeue(c: CtxId, ret: bool, transferred: nat)
    | DequeueNull(ret: bool, transferred: nat, error: LastError)
    | Classify
    | FailReturn
    | EndDispatch(delete: bool)

  /** A step inside a session call or DeleteIoContext. `wild`: should Construct have to allocate a
      chunk, the uninitialised last word of it is not null. */
  datatype CallStep =
    | Exchange
    | Construct(c: CtxId, wild: bool)
    | Submit(answer: Answer)
    | Release
    | Free

  datatype Step =
    | Env(env: EnvStep)
    | OnJob(t: ThreadId, jobStep: JobStep)
    | OnCall(t: ThreadId, callStep: CallStep)

  const EMPTY_POOL := Pool(0, 0, 0, 0, false)

  function Initial(): State {
    State(map[], map[], map[],
          map[SendContext := EMPTY_POOL, RecvContext := EMPTY_POOL, PreRecvContext := EMPTY_POOL,
              DisconnectContext := EMPTY_POOL, AcceptContext := EMPTY_POOL, ConnectContext := EMPTY_POOL],
          map[], multiset{}, multiset{}, multiset{}, map[], false, Tally(0, 0, 0, 0))
  }

  // ----- steps -----

  /** The session a thread works on. */
  function Pinned(job: Job): Option<SessionId> {
    match job
    case Holding(s, _) => Some(s)
    case Failing(_, s) => Some(s)
    case Dispatching(_, s, _) => Some(s)
    case _ => None
  }

  /** Session calls are made from the dispatch or by a thread that keeps a pointer to the session. */
  predicate MayCall(th: Thread) {
    th.call == NoCall && (th.job.Holding? || th.job.Dispatching?) && !th.job.inside
  }

  /** PreRecv, PostRecv and FlushSend start with a test of mConnected. */
  predicate NeedsConnection(cls: ContextClass) {
    cls == SendContext || cls == RecvContext || cls == PreRecvContext
  }

  /** PreRecv and PostRecv offer Winsock a buffer of length zero, FlushSend one that is not empty. */
  predicate Offers(cls: ContextClass, len: nat) {
    && (cls == SendContext ==> len > 0)
    && (cls == RecvContext || cls == PreRecvContext ==> len == 0)
  }

  predicate EnvEnabled(st: State, e: EnvStep) {
    match e
    case NewSession(s) => s !in st.sessions
    case NewThread(t) => t !in st.threads
    case TakeRef(r, s) => r !in st.outside && s in st.sessions
    case DropRef(r) => r in st.outside
    case ClosePort => !st.closed
  }

  predicate EnterEnabled(st: State, s: SessionId, op: Operation) {
    op.Post? ==>
      && op.cls != DisconnectContext && Offers(op.cls, op.len)
      && (NeedsConnection(op.cls) && s in st.sessions ==> st.sessions[s].connected)
  }

  /** A completion never reports more bytes than were offered. A null context comes with a timeout,
      or with anything once the port is closed. */
  predicate JobEnabled(st: State, th: Thread, e: JobStep) {
    && th.call == NoCall
    && match e
       case Borrow(r) => th.job == Idle && r in st.outside
       case Leave => (th.job.Holding? || th.job.Dispatching?) && th.job.inside
       case GiveBack => th.job.Holding? && !th.job.inside
       case Connect =>
         && MayCall(th)
         && var s := Pinned(th.job).value;
         s in st.sessions ==> !st.sessions[s].connected
       case Enter(op) => MayCall(th) && EnterEnabled(st, Pinned(th.job).value, op)
       case Dequeue(c, _, transferred) =>
         && th.job == Idle && !st.closed && c in st.posted
         && (c in st.heap ==> transferred <= st.heap[c].offered)
       case DequeueNull(ret, transferred, error) =>
         && th.job == Idle
         && (st.closed || (CompletionFailed(ret, transferred) && error == WaitTimeout))
       case Classify => th.job.Classifying?
       case FailReturn => th.job.Failing?
       case EndDispatch(_) => th.job.Dispatching? && !th.job.inside
  }

  predicate CallEnabled(st: State, call: Call, e: CallStep) {
    match e
    case Exchange => call.Exchanging?
    case Construct(c, _) => call.Constructing? && c !in st.heap && c !in st.freed
    case Submit(answer) =>
      && call.Submitting?
      && (answer == Leaked && call.ctx in st.heap ==> st.heap[call.ctx].cls == DisconnectContext)
    case Release => call.Releasing?
    case Free => call.Freeing?
  }

  predicate Enabled(st: State, e: Step) {
    match e
    case Env(env) => EnvEnabled(st, env)
    case OnJob(t, j) => t in st.threads && JobEnabled(st, st.threads[t], j)
    case OnCall(t, c) => t in st.threads && CallEnabled(st, st.threads[t].call, c)
  }

  /** A session nobody holds a reference to: it has been given back. */
  predicate Dead(st: State, s: SessionId) {
    s !in st.sessions || st.sessions[s].refCount <= 0
  }

  /** AddRef asserts that the incremented 32-bit count is positive. */
  predicate AddRefCrashes(st: State, s: SessionId) {
    s !in st.sessions || !(0 < st.sessions[s].refCount + 1 <= MAX_LONG)
  }

  /** ReleaseRef asserts that the decremented count is not negative. */
  predicate ReleaseRefCrashes(st: State, s: SessionId) {
    s !in st.sessions || st.sessions[s].refCount - 1 < 0
  }

  predicate EnvFaults(st: State, e: EnvStep)
    requires EnvEnabled(st, e)
  {
    match e
    case TakeRef(_, s) => AddRefCrashes(st, s)
    case DropRef(r) => ReleaseRefCrashes(st, st.outside[r])
    case _ => false
  }

  /** A null context is tolerated only with a timeout; any other context is dereferenced. */
  predicate JobFaults(st: State, th: Thread, e: JobStep)
    requires JobEnabled(st, th, e)
  {
    match e
    case Connect => Dead(st, Pinned(th.job).value)
    case Enter(_) => Dead(st, Pinned(th.job).value)
    case Leave => Dead(st, Pinned(th.job).value)
    case Dequeue(c, _, _) => c !in st.heap
    case DequeueNull(ret, transferred, error) => !(CompletionFailed(ret, transferred) && error == WaitTimeout)
    case Classify => th.job.ctx !in st.heap
    case _ => false
  }

  predicate CallFaults(st: State, call: Call, e: CallStep)
    requires CallEnabled(st, call, e)
  {
    match e
    case Exchange => Dead(st, call.session)
    case Construct(_, _) =>
      || Dead(st, call.session) || AddRefCrashes(st, call.session)
      || call.cls !in st.pools || Exhausted(st.pools[call.cls])
    case Submit(_) => call.ctx !in st.heap
    case Release =>
      || call.ctx !in st.heap
      || st.heap[call.ctx].released
      || ReleaseRefCrashes(st, st.heap[call.ctx].session)
    case Free =>
      || call.ctx !in st.heap
      || DeletedAs(st.heap[call.ctx].ioType) != Some(st.heap[call.ctx].cls)
      || st.heap[call.ctx].cls !in st.pools
      || st.pools[st.heap[call.ctx].cls].inUse <= 0
  }

  predicate Faults(st: State, e: Step)
    requires Enabled(st, e)
  {
    match e
    case Env(env) => EnvFaults(st, env)
    case OnJob(t, j) => JobFaults(st, st.threads[t], j)
    case OnCall(t, c) => CallFaults(st, st.threads[t].call, c)
  }

  function SetThread(st: State, t: ThreadId, th: Thread): State {
    st.(threads := st.threads[t := th])
  }

  function SetCall(st: State, t: ThreadId, call: Call): State
    requires t in st.threads
  {
    SetThread(st, t, st.threads[t].(call := call))
  }

  function AddRef(st: State, s: SessionId): State
    requires s in st.sessions
  {
    st.(sessions := st.sessions[s := st.sessions[s].(refCount := st.sessions[s].refCount + 1)])
  }

  function ReleaseRef(st: State, s: SessionId): State
    requires s in st.sessions
  {
    st.(sessions := st.sessions[s := st.sessions[s].(refCount := st.sessions[s].refCount - 1)])
  }

  /** The interlocked exchange of DisconnectRequest: only the caller that finds the session
      connected goes on to build a disconnect context. */
  function ApplyExchange(st: State, t: ThreadId): State
    requires t in st.threads && st.threads[t].call.Exchanging? && st.threads[t].call.session in st.sessions
  {
    var s := st.threads[t].call.session;
    var se := st.sessions[s];
    SetCall(st.(sessions := st.sessions[s := se.(connected := false)]),
            t, if se.connected then Constructing(s, DisconnectContext, 0) else NoCall)
  }

  /** operator new took a slot, from a fresh chunk if the free list was null. */
  function Allocated(p: Pool, wild: bool): Pool {
    p.(built := p.built + 1, inUse := p.inUse + 1,
       total := if p.inUse >= p.total then p.total + ALLOC_COUNT else p.total,
       wild := if p.inUse >= p.total then wild else p.wild)
  }

  function ApplyConstruct(st: State, t: ThreadId, c: CtxId, wild: bool): State
    requires t in st.threads && st.threads[t].call.Constructing?
    requires st.threads[t].call.session in st.sessions && st.threads[t].call.cls in st.pools
  {
    var Constructing(s, cls, len) := st.threads[t].call;
    var se := st.sessions[s];
    var se' := se.(refCount := se.refCount + 1,
                   disconnects := se.disconnects + Weight(cls == DisconnectContext));
    SetCall(st.(sessions := st.sessions[s := se'],
                heap := st.heap[c := Context(s, cls, ConstructorTag(cls), len, false)],
                pools := st.pools[cls := Allocated(st.pools[cls], wild)]),
            t, Submitting(c))
  }

  /** A context Winsock refuses is deleted at once; a refused send then also disconnects. */
  function ApplySubmit(st: State, t: ThreadId, answer: Answer): State
    requires t in st.threads && st.threads[t].call.Submitting? && st.threads[t].call.ctx in st.heap
  {
    var c := st.threads[t].call.ctx;
    match answer
    case Accepted =>
      SetCall(st.(posted := st.posted + multiset{c}, posts := st.posts + multiset{c}), t, NoCall)
    case Refused =>
      SetCall(st, t, Releasing(c, if st.heap[c].cls == SendContext then ThenDisconnect(st.heap[c].session) else Back))
    case Leaked => SetCall(st, t, NoCall)
  }

  function ApplyRelease(st: State, t: ThreadId): State
    requires t in st.threads && st.threads[t].call.Releasing? && st.threads[t].call.ctx in st.heap
    requires st.heap[st.threads[t].call.ctx].session in st.sessions
  {
    var Releasing(c, after) := st.threads[t].call;
    var st1 := ReleaseRef(st, st.heap[c].session);
    SetCall(st1.(heap := st.heap[c := st.heap[c].(released := true)]), t, Freeing(c, after))
  }

  /** Where a thread goes on after DeleteIoContext. */
  function AfterDelete(th: Thread, after: After): Thread {
    match after
    case Back => Thread(th.job, NoCall)
    case ThenDisconnect(s) => Thread(th.job, Exchanging(s))
    case EndJob => Thread(Idle, NoCall)
  }

  function ApplyFree(st: State, t: ThreadId): State
    requires t in st.threads && st.threads[t].call.Freeing? && st.threads[t].call.ctx in st.heap
    requires st.heap[st.threads[t].call.ctx].cls in st.pools
  {
    var th := st.threads[t];
    var Freeing(c, after) := th.call;
    var cls := st.heap[c].cls;
    var p := st.pools[cls];
    var ended := after == EndJob && th.job == Ending(true);
    st.(heap := st.heap - {c},
        pools := st.pools[cls := p.(deleted := p.deleted + 1, inUse := p.inUse - 1)],
        freed := st.freed[c := cls],
        threads := st.threads[t := AfterDelete(th, after)],
        tally := st.tally.(deletions := st.tally.deletions + Weight(ended)))
  }

  function ApplyDequeue(st: State, t: ThreadId, c: CtxId, ret: bool, transferred: nat): State
    requires c in st.heap
  {
    var failed := CompletionFailed(ret, transferred);
    var transfer := IsTransfer(st.heap[c].ioType);
    SetThread(st.(posted := st.posted - multiset{c}, dequeues := st.dequeues + multiset{c},
                  tally := st.tally.(failures := st.tally.failures + Weight(failed && transfer))),
              t, Thread(Classifying(c, st.heap[c].session, failed, transfer), NoCall))
  }

  function ApplyClassify(st: State, t: ThreadId): State
    requires t in st.threads && st.threads[t].job.Classifying? && st.threads[t].job.ctx in st.heap
  {
    var Classifying(c, s, failed, _) := st.threads[t].job;
    var disconnect := failed && IsTransfer(st.heap[c].ioType);
    st.(threads := st.threads[t := if disconnect then Thread(Failing(c, s), Exchanging(s))
                                   else Thread(Dispatching(c, s, false), NoCall)],
        tally := st.tally.(requests := st.tally.requests + Weight(disconnect),
                           dispatches := st.tally.dispatches + Weight(!disconnect)))
  }

  function ApplyEnv(st: State, e: EnvStep): State
    requires EnvEnabled(st, e) && !EnvFaults(st, e)
  {
    match e
    case NewSession(s) => st.(sessions := st.sessions[s := Session(0, false, 0, 0)])
    case NewThread(t) => SetThread(st, t, Thread(Idle, NoCall))
    case TakeRef(r, s) => AddRef(st, s).(outside := st.outside[r := s])
    case DropRef(r) => ReleaseRef(st, st.outside[r]).(outside := st.outside - {r})
    case ClosePort => st.(closed := true)
  }

  predicate UnderLock(op: Operation) {
    op.Visit? || (op.Post? && op.cls == SendContext)
  }

  function CallFor(s: SessionId, op: Operation): Call {
    match op
    case Disconnect => Exchanging(s)
    case Visit => NoCall
    case Post(cls, len) => Constructing(s, cls, len)
  }

  function ApplyJob(st: State, t: ThreadId, e: JobStep): State
    requires t in st.threads && JobEnabled(st, st.threads[t], e) && !JobFaults(st, st.threads[t], e)
  {
    var job := st.threads[t].job;
    match e
    case Borrow(r) => SetThread(st, t, Thread(Holding(st.outside[r], false), NoCall))
    case GiveBack => SetThread(st, t, Thread(Idle, NoCall))
    case Connect =>
      var s := Pinned(job).value;
      st.(sessions := st.sessions[s := st.sessions[s].(connected := true, connects := st.sessions[s].connects + 1)])
    case Enter(op) =>
      var s := Pinned(job).value;
      SetThread(st, t, Thread(job.(inside := UnderLock(op)), CallFor(s, op)))
    case Leave => SetThread(st, t, Thread(job.(inside := false), NoCall))
    case Dequeue(c, ret, transferred) => ApplyDequeue(st, t, c, ret, transferred)
    case DequeueNull(_, _, _) => st
    case Classify => ApplyClassify(st, t)
    case FailReturn => SetThread(st, t, Thread(Ending(true), Releasing(job.ctx, EndJob)))
    case EndDispatch(delete) =>
      if delete then SetThread(st, t, Thread(Ending(false), Releasing(job.ctx, EndJob)))
      else SetThread(st, t, Thread(Idle, NoCall))
  }

  function ApplyCall(st: State, t: ThreadId, e: CallStep): State
    requires t in st.threads && CallEnabled(st, st.threads[t].call, e) && !CallFaults(st, st.threads[t].call, e)
  {
    match e
    case Exchange => ApplyExchange(st, t)
    case Construct(c, wild) => ApplyConstruct(st, t, c, wild)
    case Submit(answer) => ApplySubmit(st, t, answer)
    case Release => ApplyRelease(st, t)
    case Free => ApplyFree(st, t)
  }

  function Apply(st: State, e: Step): State
    requires Enabled(st, e) && !Faults(st, e)
  {
    match e
    case Env(env) => ApplyEnv(st, env)
    case OnJob(t, j) => ApplyJob(st, t, j)
    case OnCall(t, c) => ApplyCall(st, t, c)
  }

  /** `es` is a run from `st` to `st'`: every step is enabled and none faults. */
  ghost predicate Run(st: State, es: seq<Step>, st': State)
    decreases |es|
  {
    if es == [] then st' == st
    else Enabled(st, es[0]) && !Faults(st, es[0]) && Run(Apply(st, es[0]), es[1..], st')
  }
}
