/** What becomes of disconnect contexts. DisconnectRequest as written casts an argument list to a null
    function pointer instead of calling DisconnectEx, so it never submits the context it has built. */
module OwnershipDisconnects {
  import opened Counting
  import opened IoContexts
  import opened Ownership
  import opened OwnershipInvariant
  import opened OwnershipSteps
  import opened OwnershipAccounts
  import opened OwnershipTheorems
  import opened OwnershipHistory
  import opened OwnershipWitness

  // ----- no disconnect completes -----

  /** A step that ends the submission of a disconnect context deletes or leaks it. */
  predicate NotSent(st: State, e: Step) {
    e.OnCall? && e.callStep == Submit(Accepted) && e.t in st.threads && st.threads[e.t].call.Submitting?
    && st.threads[e.t].call.ctx in st.heap
    ==> st.heap[st.threads[e.t].call.ctx].cls != DisconnectContext
  }

  ghost predicate AsWritten(st: State, es: seq<Step>, st': State)
    requires Run(st, es, st')
    decreases |es|
  {
    es != [] ==> NotSent(st, es[0]) && AsWritten(Apply(st, es[0]), es[1..], st')
  }

  ghost predicate IsDisconnect(st: State, c: CtxId) {
    || (c in st.heap && st.heap[c].cls == DisconnectContext)
    || (c in st.freed && st.freed[c] == DisconnectContext)
  }

  ghost predicate NonePosted(st: State) {
    forall c :: c in st.posts ==> !IsDisconnect(st, c)
  }

  lemma ConstructPosts(st: State, t: ThreadId, c: CtxId, wild: bool)
    requires Port(st) && NonePosted(st) && AtCall(st, t, Construct(c, wild))
    ensures NonePosted(ApplyConstruct(st, t, c, wild))
  {
  }

  lemma SubmitPosts(st: State, t: ThreadId, answer: Answer)
    requires Shape(st) && NonePosted(st) && AtCall(st, t, Submit(answer)) && NotSent(st, OnCall(t, Submit(answer)))
    ensures NonePosted(ApplySubmit(st, t, answer))
  {
  }

  lemma ReleasePosts(st: State, t: ThreadId)
    requires NonePosted(st) && AtCall(st, t, Release)
    ensures NonePosted(ApplyRelease(st, t))
  {
  }

  lemma FreePosts(st: State, t: ThreadId)
    requires NonePosted(st) && AtCall(st, t, Free)
    ensures NonePosted(ApplyFree(st, t))
  {
  }

  lemma CallPosts(st: State, t: ThreadId, e: CallStep)
    requires Shape(st) && Port(st) && NonePosted(st) && AtCall(st, t, e) && NotSent(st, OnCall(t, e))
    ensures NonePosted(ApplyCall(st, t, e))
  {
    match e
    case Exchange =>
    case Construct(c, wild) => ConstructPosts(st, t, c, wild);
    case Submit(answer) => SubmitPosts(st, t, answer);
    case Release => ReleasePosts(st, t);
    case Free => FreePosts(st, t);
  }

  lemma StepPosts(st: State, e: Step)
    requires Shape(st) && Port(st) && NonePosted(st) && Enabled(st, e) && !Faults(st, e) && NotSent(st, e)
    ensures NonePosted(Apply(st, e))
  {
    match e
    case Env(env) => EnvPosts(st, env);
    case OnJob(t, j) => JobPosts(st, t, j);
    case OnCall(t, c) => CallPosts(st, t, c);
  }

  lemma {:induction false} RunPosts(st: State, es: seq<Step>, st': State)
    requires Inv(st) && NonePosted(st) && Run(st, es, st') && AsWritten(st, es, st')
    ensures NonePosted(st')
    decreases |es|
  {
    if es != [] {
      StepPosts(st, es[0]);
      StepKeepsInv(st, es[0]);
      RunPosts(Apply(st, es[0]), es[1..], st');
    }
  }

  /** In every run of DisconnectRequest as written, no disconnect completion ever comes off the port. */
  lemma NoDisconnectCompletes(es: seq<Step>, st: State, c: CtxId)
    requires Run(Initial(), es, st) && AsWritten(Initial(), es, st) && c in DequeueEvents(es)
    ensures (c in st.heap || c in st.freed) && !IsDisconnect(st, c)
  {
    InitialInv();
    ReachableInv(es, st);
    RunPosts(Initial(), es, st);
    DequeuesLogged(Initial(), es, st);
    assert st.posts[c] == st.posted[c] + st.dequeues[c];
  }

  // ----- a leaked context -----

  /** A disconnect context was built and is about to be submitted. */
  ghost predicate Building(st: State) {
    && 0 in st.threads && st.threads[0] == Thread(Holding(0, false), Submitting(0)) && st.threads.Keys == {0}
    && 0 in st.heap && st.heap[0].cls == DisconnectContext && !st.heap[0].released && st.posts == multiset{}
    && 0 in st.sessions && st.sessions[0] == Session(2, false, 1, 1)
  }

  lemma ReachBuilding() returns (es: seq<Step>, st: State)
    ensures Run(Initial(), es, st) && Building(st)
  {
    es := ReachHeld(true);
    es, st := Extend(es, Held(true), OnJob(0, Enter(Disconnect)));
    es, st := Extend(es, st, OnCall(0, Exchange));
    es, st := Extend(es, st, OnCall(0, Construct(0, true)));
  }

  /** It happens: a run of DisconnectRequest as written leaves its context adrift. */
  lemma DisconnectCanLeak() returns (es: seq<Step>, st: State)
    ensures Run(Initial(), es, st) && Adrift(st, 0) && st.heap[0].cls == DisconnectContext
  {
    es, st := ReachBuilding();
    es, st := Extend(es, st, OnCall(0, Submit(Leaked)));
  }

  /** A session that was disconnected can be connected again. */
  lemma CanReconnect() returns (es: seq<Step>, st: State)
    ensures Run(Initial(), es, st)
    ensures 0 in st.sessions && st.sessions[0].connected && st.sessions[0].connects == 2 && st.sessions[0].disconnects == 1
  {
    es, st := ReachBuilding();
    es, st := Extend(es, st, OnCall(0, Submit(Leaked)));
    es, st := Extend(es, st, OnJob(0, Connect));
  }
}
