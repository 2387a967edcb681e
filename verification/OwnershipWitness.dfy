/** Runs that exist: a release that ends a session whose context is still to be freed, a receive that
    completes without error and is taken for a failure, and one run to each of the hazards. */
module OwnershipWitness {
  import opened IoContexts
  import opened Ownership
  import opened OwnershipInvariant
  import opened OwnershipTheorems

  lemma Extend(es: seq<Step>, st: State, e: Step) returns (es': seq<Step>, st': State)
    requires Run(Initial(), es, st) && Enabled(st, e) && !Faults(st, e)
    ensures Run(Initial(), es', st') && st' == Apply(st, e)
  {
    RunExtend(Initial(), es, st, e);
    es', st' := es + [e], Apply(st, e);
  }

  /** Session 0 with outside reference 0, and an idle thread 0. */
  function Taken(): State {
    Initial().(sessions := map[0 := Session(1, false, 0, 0)],
               outside := map[0 := 0],
               threads := map[0 := Thread(Idle, NoCall)])
  }

  lemma ReachTaken() returns (es: seq<Step>)
    ensures Run(Initial(), es, Taken())
  {
    var st: State;
    es, st := Extend([], Initial(), Env(NewSession(0)));
    es, st := Extend(es, st, Env(NewThread(0)));
    es, st := Extend(es, st, Env(TakeRef(0, 0)));
    assert st == Taken();
  }

  /** The session with `n` references, connected or not. */
  function Peer(n: int, connected: bool): map<SessionId, Session> {
    map[0 := Session(n, connected, if connected then 1 else 0, 0)]
  }

  /** Thread 0 works on the session through that reference, and has connected it if `connected`. */
  function Held(connected: bool): State {
    Taken().(sessions := Peer(1, connected), threads := map[0 := Thread(Holding(0, false), NoCall)])
  }

  lemma ReachHeld(connected: bool) returns (es: seq<Step>)
    ensures Run(Initial(), es, Held(connected))
  {
    var st: State := Taken();
    es := ReachTaken();
    es, st := Extend(es, st, OnJob(0, Borrow(0)));
    assert st == Held(false);
    if connected {
      es, st := Extend(es, st, OnJob(0, Connect));
      assert st == Held(true);
    }
  }

  /** A receive needs a connection, an accept does not. */
  function Class(connected: bool): ContextClass {
    if connected then RecvContext else AcceptContext
  }

  /** It is about to build a context. */
  function Asked(connected: bool): State {
    Held(connected).(threads := map[0 := Thread(Holding(0, false), Constructing(0, Class(connected), 0))])
  }

  lemma ReachAsked(connected: bool) returns (es: seq<Step>)
    ensures Run(Initial(), es, Asked(connected))
  {
    var st: State := Held(connected);
    es := ReachHeld(connected);
    es, st := Extend(es, st, OnJob(0, Enter(Post(Class(connected), 0))));
    assert st == Asked(connected);
  }

  /** It has built context 0. */
  function Built(connected: bool): State {
    var cls := Class(connected);
    Held(connected).(sessions := Peer(2, connected),
                     heap := map[0 := Context(0, cls, ConstructorTag(cls), 0, false)],
                     pools := Initial().pools[cls := Pool(1, 0, 1, ALLOC_COUNT, true)],
                     threads := map[0 := Thread(Holding(0, false), Submitting(0))])
  }

  lemma BuiltIs(connected: bool)
    ensures ApplyConstruct(Asked(connected), 0, 0, true) == Built(connected)
  {
    var a, b := ApplyConstruct(Asked(connected), 0, 0, true), Built(connected);
    assert a.sessions == b.sessions && a.heap == b.heap && a.threads == b.threads;
    assert Allocated(EMPTY_POOL, true) == Pool(1, 0, 1, ALLOC_COUNT, true);
  }

  lemma ReachBuilt(connected: bool) returns (es: seq<Step>)
    ensures Run(Initial(), es, Built(connected))
  {
    var st: State := Asked(connected);
    es := ReachAsked(connected);
    es, st := Extend(es, st, OnCall(0, Construct(0, true)));
    BuiltIs(connected);
  }

  /** The context is posted and the thread idle again. */
  function Posted(connected: bool): State {
    Built(connected).(threads := map[0 := Thread(Idle, NoCall)], posted := multiset{0}, posts := multiset{0})
  }

  lemma ReachPosted(connected: bool) returns (es: seq<Step>)
    ensures Run(Initial(), es, Posted(connected))
  {
    var st: State := Built(connected);
    es := ReachBuilt(connected);
    es, st := Extend(es, st, OnCall(0, Submit(Accepted)));
    es, st := Extend(es, st, OnJob(0, GiveBack));
    assert st == Posted(connected);
  }

  /** The outside reference is gone. */
  function Dropped(connected: bool): State {
    Posted(connected).(sessions := Peer(1, connected), outside := map[])
  }

  lemma ReachDropped(connected: bool) returns (es: seq<Step>)
    ensures Run(Initial(), es, Dropped(connected))
  {
    var st: State := Posted(connected);
    es := ReachPosted(connected);
    es, st := Extend(es, st, Env(DropRef(0)));
    assert st == Dropped(connected);
  }

  /** Thread 0 has taken the completion off the port: no error, and no byte moved. */
  function Dequeued(connected: bool): State {
    Dropped(connected).(threads := map[0 := Thread(Classifying(0, 0, true, connected), NoCall)],
                        posted := multiset{},
                        dequeues := multiset{0},
                        tally := Tally(if connected then 1 else 0, 0, 0, 0))
  }

  lemma ReachDequeued(connected: bool) returns (es: seq<Step>)
    ensures Run(Initial(), es, Dequeued(connected))
  {
    var st: State := Dropped(connected);
    var before := ReachDropped(connected);
    es, st := Extend(before, st, OnJob(0, Dequeue(0, true, 0)));
    assert st.posted == multiset{} && st.dequeues == multiset{0};
    assert st == Dequeued(connected);
  }

  /** A context can outlive its session: its own release was the last one, and it is still to be freed. */
  lemma ReleaseCanEndSession() returns (es: seq<Step>, st: State)
    ensures Run(Initial(), es, st)
    ensures IsFreeing(st, 0, 0) && 0 in st.heap && Dead(st, st.heap[0].session)
  {
    st := Dequeued(false);
    es := ReachDequeued(false);
    es, st := Extend(es, st, OnJob(0, Classify));
    es, st := Extend(es, st, OnJob(0, EndDispatch(true)));
    es, st := Extend(es, st, OnCall(0, Release));
  }

  /** A receive is posted, completes without error, and the worker disconnects its session. */
  lemma ReceiveTakenForFailure() returns (es: seq<Step>, st: State)
    ensures Run(Initial(), es, st) && OnJob(0, Dequeue(0, true, 0)) in es
    ensures 0 in st.heap && st.heap[0].cls == RecvContext
    ensures 0 in st.threads && st.threads[0] == Thread(Failing(0, 0), Exchanging(0))
  {
    var before := ReachDropped(true);
    var dequeue := OnJob(0, Dequeue(0, true, 0));
    RunExtend(Initial(), before, Dropped(true), dequeue);
    es, st := before + [dequeue], Apply(Dropped(true), dequeue);
    RunExtend(Initial(), es, st, OnJob(0, Classify));
    es, st := es + [OnJob(0, Classify)], Apply(st, OnJob(0, Classify));
  }

  // ----- a send -----

  /** Session 0 is connected and referred to from outside, and nothing of it was ever freed. */
  ghost predicate Connected(st: State, refs: int) {
    && 0 in st.sessions && st.sessions[0].refCount == refs && st.sessions[0].connected
    && st.freed == map[] && !st.closed
    && DisconnectContext in st.pools && st.pools[DisconnectContext] == EMPTY_POOL
    && SendContext in st.pools
  }

  /** Its send context 0 with 500 bytes. */
  ghost predicate HasSend(st: State) {
    && 0 in st.heap && st.heap[0] == Context(0, SendContext, IoSend, 500, false) && st.heap.Keys == {0}
    && SendContext in st.pools && st.pools[SendContext].inUse == 1
  }

  ghost predicate SendPosted(st: State) {
    && Connected(st, 2) && HasSend(st) && 0 in st.posted
    && 0 in st.threads && st.threads[0] == Thread(Idle, NoCall)
  }

  lemma ReachSendBuilt() returns (es: seq<Step>, st: State)
    ensures Run(Initial(), es, st) && Connected(st, 2) && HasSend(st)
    ensures 0 in st.threads && st.threads[0] == Thread(Holding(0, true), Submitting(0)) && st.threads.Keys == {0}
    ensures st.outside == map[0 := 0]
  {
    es, st := ReachSendAsked();
    es, st := Extend(es, st, OnCall(0, Construct(0, true)));
  }

  lemma ReachSendAsked() returns (es: seq<Step>, st: State)
    ensures Run(Initial(), es, st) && Connected(st, 1) && st.heap == map[] && st.pools[SendContext] == EMPTY_POOL
    ensures 0 in st.threads && st.threads[0] == Thread(Holding(0, true), Constructing(0, SendContext, 500))
    ensures st.threads.Keys == {0} && st.outside == map[0 := 0]
  {
    es := ReachHeld(true);
    es, st := Extend(es, Held(true), OnJob(0, Enter(Post(SendContext, 500))));
  }

  lemma ReachSendPosted() returns (es: seq<Step>, st: State)
    ensures Run(Initial(), es, st) && SendPosted(st)
  {
    es, st := ReachSendBuilt();
    es, st := Extend(es, st, OnCall(0, Submit(Accepted)));
    es, st := Extend(es, st, OnJob(0, Leave));
    es, st := Extend(es, st, OnJob(0, GiveBack));
  }

  /** A send that moved all its bytes reaches the dispatch. */
  lemma SendDispatched() returns (es: seq<Step>, st: State)
    ensures Run(Initial(), es, st) && OnJob(0, Dequeue(0, true, 500)) in es
    ensures 0 in st.heap && st.heap[0].cls == SendContext
    ensures 0 in st.threads && st.threads[0] == Thread(Dispatching(0, 0, false), NoCall)
  {
    var before, posted := ReachSendPosted();
    var dequeue := OnJob(0, Dequeue(0, true, 500));
    RunExtend(Initial(), before, posted, dequeue);
    es, st := before + [dequeue], Apply(posted, dequeue);
    RunExtend(Initial(), es, st, OnJob(0, Classify));
    es, st := es + [OnJob(0, Classify)], Apply(st, OnJob(0, Classify));
  }

  /** From the dispatch the worker calls into the session and then deletes the context. */
  lemma DispatchCalls() returns (es: seq<Step>, st: State)
    ensures Run(Initial(), es, st) && OnJob(0, Enter(Visit)) in es
    ensures 0 in st.threads && st.threads[0] == Thread(Ending(false), Releasing(0, EndJob))
  {
    var before, dispatched := SendDispatched();
    assert 0 in dispatched.sessions && dispatched.sessions[0].refCount > 0 by {
      DispatchedLive(before, dispatched, 0);
    }
    var enter := OnJob(0, Enter(Visit));
    RunExtend(Initial(), before, dispatched, enter);
    es, st := before + [enter], Apply(dispatched, enter);
    RunExtend(Initial(), es, st, OnJob(0, Leave));
    es, st := es + [OnJob(0, Leave)], Apply(st, OnJob(0, Leave));
    RunExtend(Initial(), es, st, OnJob(0, EndDispatch(true)));
    es, st := es + [OnJob(0, EndDispatch(true))], Apply(st, OnJob(0, EndDispatch(true)));
  }

  /** The thread has found that send failed, and has marked the session disconnected. */
  ghost predicate SendFailing(st: State) {
    && 0 in st.sessions && st.sessions[0].refCount == 2 && !st.sessions[0].connected && st.freed == map[]
    && DisconnectContext in st.pools && st.pools[DisconnectContext] == EMPTY_POOL
    && SendContext in st.pools && HasSend(st)
    && 0 in st.threads && st.threads[0] == Thread(Failing(0, 0), Constructing(0, DisconnectContext, 0))
  }

  lemma ReachSendFailing() returns (es: seq<Step>, st: State)
    ensures Run(Initial(), es, st) && SendFailing(st)
  {
    es, st := ReachSendPosted();
    es, st := Extend(es, st, OnJob(0, Dequeue(0, false, 0)));
    es, st := Extend(es, st, OnJob(0, Classify));
    es, st := Extend(es, st, OnCall(0, Exchange));
  }

  /** Its disconnect context, 1, was refused and is being deleted. */
  ghost predicate SendRefused(st: State) {
    && 0 in st.sessions && st.sessions[0].refCount == 3 && !st.sessions[0].connected && st.freed == map[]
    && DisconnectContext in st.pools && st.pools[DisconnectContext].inUse == 1
    && SendContext in st.pools && st.pools[SendContext].inUse == 1
    && 0 in st.heap && st.heap[0] == Context(0, SendContext, IoSend, 500, false)
    && 1 in st.heap && st.heap[1] == Context(0, DisconnectContext, IoDisconnect, 0, false)
    && 0 in st.threads && st.threads[0] == Thread(Failing(0, 0), Releasing(1, Back))
  }

  lemma ReachSendRefused() returns (es: seq<Step>, st: State)
    ensures Run(Initial(), es, st) && SendRefused(st)
  {
    es, st := ReachSendFailing();
    es, st := Extend(es, st, OnCall(0, Construct(1, true)));
    es, st := Extend(es, st, OnCall(0, Submit(Refused)));
  }

  ghost predicate SendDeleting(st: State) {
    && 0 in st.sessions && st.sessions[0].refCount == 2 && !st.sessions[0].connected
    && SendContext in st.pools && st.pools[SendContext].inUse == 1
    && 0 in st.heap && st.heap[0] == Context(0, SendContext, IoSend, 500, false)
    && 0 in st.threads && st.threads[0] == Thread(Ending(true), Releasing(0, EndJob))
  }

  lemma ReachSendDeleting() returns (es: seq<Step>, st: State)
    ensures Run(Initial(), es, st) && SendDeleting(st)
  {
    es, st := ReachSendRefused();
    es, st := Extend(es, st, OnCall(0, Release));
    es, st := Extend(es, st, OnCall(0, Free));
    es, st := Extend(es, st, OnJob(0, FailReturn));
  }

  /** A send that fails has its session disconnected and its context freed as a send. */
  lemma FailedSendFreed() returns (es: seq<Step>, st: State)
    ensures Run(Initial(), es, st) && 0 in st.sessions && !st.sessions[0].connected
    ensures 0 !in st.heap && 0 in st.freed && st.freed[0] == SendContext
    ensures 0 in st.threads && st.threads[0] == Thread(Idle, NoCall)
  {
    es, st := ReachSendDeleting();
    es, st := Extend(es, st, OnCall(0, Release));
    es, st := Extend(es, st, OnCall(0, Free));
  }

  // ----- the hazards -----

  /** A thread is under the send lock when the only reference is dropped, and crashes on the way out. */
  lemma LostLeaveCrashes() returns (es: seq<Step>, st: State)
    ensures Run(Initial(), es, st) && Enabled(st, OnJob(0, Leave)) && Faults(st, OnJob(0, Leave))
  {
    es := ReachHeld(false);
    es, st := Extend(es, Held(false), OnJob(0, Enter(Visit)));
    es, st := Extend(es, st, Env(DropRef(0)));
  }

  /** The same inside FlushSend: its context completed and was freed before it has left the lock. */
  lemma LostFlushCrashes() returns (es: seq<Step>, st: State)
    ensures Run(Initial(), es, st) && 0 in st.freed && st.freed[0] == SendContext
    ensures Enabled(st, OnJob(0, Leave)) && Faults(st, OnJob(0, Leave))
  {
    es, st := ReachOthersDeleting();
    es, st := Extend(es, st, OnCall(1, Release));
    es, st := Extend(es, st, OnCall(1, Free));
  }

  /** Thread 0 has handed its send to Winsock and is still under the lock; nothing else refers to the
      session. */
  ghost predicate SendHanded(st: State) {
    && Connected(st, 1) && HasSend(st) && 0 in st.posted
    && 0 in st.threads && st.threads[0] == Thread(Holding(0, true), NoCall)
    && 1 in st.threads && st.threads[1] == Thread(Idle, NoCall)
  }

  lemma ReachSendHanded() returns (es: seq<Step>, st: State)
    ensures Run(Initial(), es, st) && SendHanded(st)
  {
    es, st := ReachSendBuilt();
    assert st.outside == map[0 := 0] && 1 !in st.threads;
    es, st := Extend(es, st, OnCall(0, Submit(Accepted)));
    es, st := Extend(es, st, Env(NewThread(1)));
    es, st := Extend(es, st, Env(DropRef(0)));
  }

  /** Another thread has taken the completion, dispatched it, and deletes it. */
  lemma ReachOthersDeleting() returns (es: seq<Step>, st: State)
    ensures Run(Initial(), es, st) && Connected(st, 1) && HasSend(st)
    ensures 0 in st.threads && st.threads[0] == Thread(Holding(0, true), NoCall)
    ensures 1 in st.threads && st.threads[1] == Thread(Ending(false), Releasing(0, EndJob))
  {
    es, st := ReachSendHanded();
    es, st := Extend(es, st, OnJob(1, Dequeue(0, true, 500)));
    es, st := Extend(es, st, OnJob(1, Classify));
    es, st := Extend(es, st, OnJob(1, EndDispatch(true)));
  }

  /** A thread keeps a pointer to a session, the only reference is dropped, and it calls in. */
  lemma LostCallCrashes() returns (es: seq<Step>, st: State)
    ensures Run(Initial(), es, st) && Enabled(st, OnJob(0, Enter(Disconnect))) && Faults(st, OnJob(0, Enter(Disconnect)))
  {
    es := ReachHeld(false);
    es, st := Extend(es, Held(false), Env(DropRef(0)));
  }

  /** A worker waits on the port when Finalize closes it. */
  lemma ClosedPortReached() returns (es: seq<Step>, st: State)
    ensures Run(Initial(), es, st) && st.closed && 0 in st.threads && st.threads[0] == Thread(Idle, NoCall)
    ensures var crash := OnJob(0, DequeueNull(false, 0, OtherError)); Enabled(st, crash) && Faults(st, crash)
  {
    es, st := Extend([], Initial(), Env(NewThread(0)));
    es, st := Extend(es, st, Env(ClosePort));
  }

  /** A session collects `n` references. */
  lemma {:induction false} Gather(n: nat) returns (es: seq<Step>, st: State)
    requires n <= MAX_LONG
    ensures Run(Initial(), es, st) && 0 in st.sessions && st.sessions[0].refCount == n
    ensures forall r :: r in st.outside ==> r < n
  {
    if n == 0 {
      es, st := Extend([], Initial(), Env(NewSession(0)));
    } else {
      es, st := Gather(n - 1);
      es, st := Extend(es, st, Env(TakeRef(n - 1, 0)));
    }
  }

  /** The next reference after 2^31 - 1 trips the assertion of AddRef. */
  lemma CountOverflows() returns (es: seq<Step>, st: State)
    ensures Run(Initial(), es, st) && Enabled(st, Env(TakeRef(MAX_LONG, 0))) && Faults(st, Env(TakeRef(MAX_LONG, 0)))
    ensures 0 in st.sessions && st.sessions[0].refCount == 0x7FFF_FFFF
  {
    es, st := Gather(MAX_LONG);
  }

  /** Thread 0 works on session 0 with `n` accept contexts live, the first `n` ids. */
  ghost predicate Crowd(st: State, n: nat) {
    && 0 in st.threads && st.threads[0] == Thread(Holding(0, false), NoCall)
    && 0 in st.sessions && st.sessions[0].refCount == n + 1
    && AcceptContext in st.pools && st.pools[AcceptContext].inUse == n
    && (if n == 0 then st.pools[AcceptContext] == EMPTY_POOL
        else st.pools[AcceptContext].wild && st.pools[AcceptContext].total == ALLOC_COUNT)
    && (forall c :: c in st.heap ==> c < n) && st.freed == map[]
  }

  lemma CrowdGrows(es: seq<Step>, st: State, n: nat) returns (es': seq<Step>, st': State)
    requires Run(Initial(), es, st) && Crowd(st, n) && n < ALLOC_COUNT
    ensures Run(Initial(), es', st') && Crowd(st', n + 1)
  {
    es', st' := Extend(es, st, OnJob(0, Enter(Post(AcceptContext, 0))));
    es', st' := Extend(es', st', OnCall(0, Construct(n, true)));
    es', st' := Extend(es', st', OnCall(0, Submit(Accepted)));
  }

  lemma {:induction false} ReachCrowd(n: nat) returns (es: seq<Step>, st: State)
    requires n <= ALLOC_COUNT
    ensures Run(Initial(), es, st) && Crowd(st, n)
  {
    if n == 0 {
      es := ReachHeld(false);
      st := Held(false);
    } else {
      es, st := ReachCrowd(n - 1);
      es, st := CrowdGrows(es, st, n - 1);
    }
  }

  /** The hundred-and-first live context of a class is built in memory nobody allocated. */
  lemma PoolRunsOut(wild: bool) returns (es: seq<Step>, st: State)
    ensures Run(Initial(), es, st) && Enabled(st, OnCall(0, Construct(ALLOC_COUNT, wild)))
    ensures Faults(st, OnCall(0, Construct(ALLOC_COUNT, wild))) && ConstructHazard(st, st.threads[0].call)
    ensures AcceptContext in st.pools && st.pools[AcceptContext].inUse == 100
  {
    es, st := ReachCrowd(ALLOC_COUNT);
    es, st := Extend(es, st, OnJob(0, Enter(Post(AcceptContext, 0))));
  }
}
