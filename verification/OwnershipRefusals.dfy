/** Every send that Winsock refuses is answered by a disconnect request for its session. */
module OwnershipRefusals {
  import opened Counting
  import opened IoContexts
  import opened Ownership
  import opened OwnershipInvariant
  import opened OwnershipSteps
  import opened OwnershipAccounts
  import opened OwnershipTheorems
  import opened WorkerThread

  /** The session of a send that is refused in this step. */
  function Refusal(st: State, e: Step): multiset<SessionId>
    requires Enabled(st, e) && !Faults(st, e)
  {
    if e.OnCall? && e.callStep == Submit(Refused) && st.heap[st.threads[e.t].call.ctx].cls == SendContext
    then multiset{st.heap[st.threads[e.t].call.ctx].session} else multiset{}
  }

  /** The session that DisconnectRequest marks as not connected in this step, called under the send lock. */
  function Answered(st: State, e: Step): multiset<SessionId>
    requires Enabled(st, e) && !Faults(st, e)
  {
    if e.OnCall? && e.callStep.Exchange? && Inside(st.threads[e.t].job)
    then multiset{st.threads[e.t].call.session} else multiset{}
  }

  predicate Inside(job: Job) {
    (job.Holding? || job.Dispatching?) && job.inside
  }

  ghost function Refusals(st: State, es: seq<Step>, st': State): multiset<SessionId>
    requires Run(st, es, st')
    decreases |es|
  {
    if es == [] then multiset{} else Refusal(st, es[0]) + Refusals(Apply(st, es[0]), es[1..], st')
  }

  ghost function Answers(st: State, es: seq<Step>, st': State): multiset<SessionId>
    requires Run(st, es, st')
    decreases |es|
  {
    if es == [] then multiset{} else Answered(st, es[0]) + Answers(Apply(st, es[0]), es[1..], st')
  }

  /** A thread that deletes a refused send of `s`, or is about to disconnect `s` for it. */
  function Owing(s: SessionId): Thread -> bool {
    (th: Thread) =>
      || ((th.call.Releasing? || th.call.Freeing?) && th.call.after == ThenDisconnect(s))
      || (th.call == Exchanging(s) && Inside(th.job))
  }

  // ----- sends are built and submitted under the send lock -----

  /** A call that builds, submits or gives up a send. */
  ghost predicate Sends(st: State, call: Call) {
    || (call.Constructing? && call.cls == SendContext)
    || (call.Submitting? && call.ctx in st.heap && st.heap[call.ctx].cls == SendContext)
    || ((call.Releasing? || call.Freeing?) && call.after.ThenDisconnect?)
  }

  ghost predicate SendOk(st: State, th: Thread) {
    Sends(st, th.call) ==> Inside(th.job)
  }

  ghost predicate SendsInside(st: State) {
    forall t :: t in st.threads ==> SendOk(st, st.threads[t])
  }

  lemma OthersInside(st: State, e: Step, u: ThreadId)
    requires Threads(st) && Enabled(st, e) && !Faults(st, e) && u in st.threads && Foreign(e, u)
    requires SendOk(st, st.threads[u])
    ensures u in Apply(st, e).threads && SendOk(Apply(st, e), Apply(st, e).threads[u])
  {
    ForeignKeeps(st, e, u);
    assert ThreadOk(st, st.threads[u]);
  }

  lemma OwnJobInside(st: State, t: ThreadId, e: JobStep)
    requires AtJob(st, t, e)
    ensures t in ApplyJob(st, t, e).threads && SendOk(ApplyJob(st, t, e), ApplyJob(st, t, e).threads[t])
  {
    if e.Enter? {
      EnterInside(st, t, e.op);
    } else {
      OtherInside(st, t, e);
    }
  }

  lemma OtherInside(st: State, t: ThreadId, e: JobStep)
    requires AtJob(st, t, e) && !e.Enter?
    ensures t in ApplyJob(st, t, e).threads && !Sends(ApplyJob(st, t, e), ApplyJob(st, t, e).threads[t].call)
  {
    if e.Dequeue? {
      assert ApplyJob(st, t, e) == ApplyDequeue(st, t, e.c, e.ret, e.transferred);
    } else if e.Classify? {
      assert ApplyJob(st, t, e) == ApplyClassify(st, t);
    }
  }

  lemma EnterInside(st: State, t: ThreadId, op: Operation)
    requires AtJob(st, t, Enter(op))
    ensures t in ApplyJob(st, t, Enter(op)).threads
    ensures SendOk(ApplyJob(st, t, Enter(op)), ApplyJob(st, t, Enter(op)).threads[t])
  {
  }

  lemma ConstructInside(st: State, t: ThreadId, c: CtxId, wild: bool)
    requires AtCall(st, t, Construct(c, wild)) && SendOk(st, st.threads[t])
    ensures SendOk(ApplyConstruct(st, t, c, wild), ApplyConstruct(st, t, c, wild).threads[t])
  {
  }

  lemma SubmitInside(st: State, t: ThreadId, answer: Answer)
    requires AtCall(st, t, Submit(answer)) && SendOk(st, st.threads[t])
    ensures SendOk(ApplySubmit(st, t, answer), ApplySubmit(st, t, answer).threads[t])
  {
  }

  lemma DeleteInside(st: State, t: ThreadId, e: CallStep)
    requires AtCall(st, t, e) && (e.Release? || e.Free?) && SendOk(st, st.threads[t])
    ensures t in ApplyCall(st, t, e).threads && SendOk(ApplyCall(st, t, e), ApplyCall(st, t, e).threads[t])
  {
  }

  lemma OwnCallInside(st: State, t: ThreadId, e: CallStep)
    requires AtCall(st, t, e) && SendOk(st, st.threads[t])
    ensures t in ApplyCall(st, t, e).threads && SendOk(ApplyCall(st, t, e), ApplyCall(st, t, e).threads[t])
  {
    match e
    case Exchange => assert ApplyCall(st, t, e) == ApplyExchange(st, t);
    case Construct(c, wild) => ConstructInside(st, t, c, wild);
    case Submit(answer) => SubmitInside(st, t, answer);
    case Release => DeleteInside(st, t, e);
    case Free => DeleteInside(st, t, e);
  }

  lemma JobThreads(st: State, t: ThreadId, e: JobStep)
    requires AtJob(st, t, e)
    ensures ApplyJob(st, t, e).threads.Keys == st.threads.Keys
  {
    if !e.Connect? {
      JobQuiet(st, t, e);
    }
  }

  lemma JobInside(st: State, t: ThreadId, e: JobStep)
    requires Threads(st) && SendsInside(st) && AtJob(st, t, e)
    ensures SendsInside(ApplyJob(st, t, e))
  {
    JobThreads(st, t, e);
    forall u | u in st.threads
      ensures SendOk(ApplyJob(st, t, e), ApplyJob(st, t, e).threads[u])
    {
      if u == t {
        OwnJobInside(st, t, e);
      } else {
        OthersInside(st, OnJob(t, e), u);
      }
    }
  }

  lemma CallInside(st: State, t: ThreadId, e: CallStep)
    requires Threads(st) && SendsInside(st) && AtCall(st, t, e)
    ensures SendsInside(ApplyCall(st, t, e))
  {
    CallQuiet(st, t, e);
    forall u | u in st.threads
      ensures SendOk(ApplyCall(st, t, e), ApplyCall(st, t, e).threads[u])
    {
      if u == t {
        OwnCallInside(st, t, e);
      } else {
        OthersInside(st, OnCall(t, e), u);
      }
    }
  }

  lemma EnvInside(st: State, e: EnvStep)
    requires SendsInside(st) && EnvEnabled(st, e) && !EnvFaults(st, e)
    ensures SendsInside(ApplyEnv(st, e))
  {
  }

  lemma StepInside(st: State, e: Step)
    requires Threads(st) && SendsInside(st) && Enabled(st, e) && !Faults(st, e)
    ensures SendsInside(Apply(st, e))
  {
    match e
    case Env(env) => EnvInside(st, env);
    case OnJob(t, j) => JobInside(st, t, j);
    case OnCall(t, c) => CallInside(st, t, c);
  }

  // ----- the balance -----

  lemma Moved(threads: map<ThreadId, Thread>, t: ThreadId, th': Thread, s: SessionId, more: int)
    requires t in threads && Weight(Owing(s)(th')) == Weight(Owing(s)(threads[t])) + more
    ensures Count(threads[t := th'], Owing(s)) == Count(threads, Owing(s)) + more
  {
    CountUpdate(threads, t, th', Owing(s));
  }

  lemma JobOwes(st: State, t: ThreadId, e: JobStep, s: SessionId)
    requires AtJob(st, t, e) && !e.Connect?
    ensures t in ApplyJob(st, t, e).threads
    ensures Owing(s)(ApplyJob(st, t, e).threads[t]) == Owing(s)(st.threads[t]) == false
  {
    if e.Dequeue? {
      assert ApplyJob(st, t, e) == ApplyDequeue(st, t, e.c, e.ret, e.transferred);
    } else if e.Classify? {
      assert ApplyJob(st, t, e) == ApplyClassify(st, t);
    }
  }

  lemma JobBalance(st: State, t: ThreadId, e: JobStep, s: SessionId)
    requires AtJob(st, t, e)
    ensures Count(ApplyJob(st, t, e).threads, Owing(s)) == Count(st.threads, Owing(s))
  {
    if !e.Connect? {
      JobQuiet(st, t, e);
      JobOwes(st, t, e, s);
      Moved(st.threads, t, ApplyJob(st, t, e).threads[t], s, 0);
    }
  }

  lemma ExchangeBalance(st: State, t: ThreadId, s: SessionId)
    requires AtCall(st, t, Exchange)
    ensures Count(ApplyExchange(st, t).threads, Owing(s)) + Answered(st, OnCall(t, Exchange))[s] ==
            Count(st.threads, Owing(s))
  {
    Moved(st.threads, t, ApplyExchange(st, t).threads[t], s, -(Answered(st, OnCall(t, Exchange))[s] as int));
  }

  lemma ConstructBalance(st: State, t: ThreadId, c: CtxId, wild: bool, s: SessionId)
    requires AtCall(st, t, Construct(c, wild))
    ensures Count(ApplyConstruct(st, t, c, wild).threads, Owing(s)) == Count(st.threads, Owing(s))
  {
    Moved(st.threads, t, ApplyConstruct(st, t, c, wild).threads[t], s, 0);
  }

  lemma SubmitBalance(st: State, t: ThreadId, answer: Answer, s: SessionId)
    requires AtCall(st, t, Submit(answer))
    ensures Count(ApplySubmit(st, t, answer).threads, Owing(s)) ==
            Count(st.threads, Owing(s)) + Refusal(st, OnCall(t, Submit(answer)))[s]
  {
    Moved(st.threads, t, ApplySubmit(st, t, answer).threads[t], s, Refusal(st, OnCall(t, Submit(answer)))[s]);
  }

  lemma ReleaseBalance(st: State, t: ThreadId, s: SessionId)
    requires AtCall(st, t, Release)
    ensures Count(ApplyRelease(st, t).threads, Owing(s)) == Count(st.threads, Owing(s))
  {
    Moved(st.threads, t, ApplyRelease(st, t).threads[t], s, 0);
  }

  lemma FreeBalance(st: State, t: ThreadId, s: SessionId)
    requires AtCall(st, t, Free) && SendOk(st, st.threads[t])
    ensures Count(ApplyFree(st, t).threads, Owing(s)) == Count(st.threads, Owing(s))
  {
    Moved(st.threads, t, ApplyFree(st, t).threads[t], s, 0);
  }

  lemma CallBalance(st: State, t: ThreadId, e: CallStep, s: SessionId)
    requires AtCall(st, t, e) && SendOk(st, st.threads[t])
    ensures Count(ApplyCall(st, t, e).threads, Owing(s)) + Answered(st, OnCall(t, e))[s] ==
            Count(st.threads, Owing(s)) + Refusal(st, OnCall(t, e))[s]
  {
    match e
    case Exchange => ExchangeBalance(st, t, s);
    case Construct(c, wild) => ConstructBalance(st, t, c, wild, s);
    case Submit(answer) => SubmitBalance(st, t, answer, s);
    case Release => ReleaseBalance(st, t, s);
    case Free => FreeBalance(st, t, s);
  }

  lemma EnvBalance(st: State, e: EnvStep, s: SessionId)
    requires EnvEnabled(st, e) && !EnvFaults(st, e)
    ensures Count(ApplyEnv(st, e).threads, Owing(s)) == Count(st.threads, Owing(s))
  {
    if e.NewThread? {
      CountUpdate(st.threads, e.t, Thread(Idle, NoCall), Owing(s));
    }
  }

  lemma StepBalance(st: State, e: Step, s: SessionId)
    requires SendsInside(st) && Enabled(st, e) && !Faults(st, e)
    ensures Count(Apply(st, e).threads, Owing(s)) + Answered(st, e)[s] ==
            Count(st.threads, Owing(s)) + Refusal(st, e)[s]
  {
    match e
    case Env(env) => EnvBalance(st, env, s);
    case OnJob(t, j) => JobBalance(st, t, j, s);
    case OnCall(t, c) => CallBalance(st, t, c, s);
  }

  lemma {:induction false} RunBalance(st: State, es: seq<Step>, st': State, s: SessionId)
    requires Inv(st) && SendsInside(st) && Run(st, es, st')
    ensures Count(st'.threads, Owing(s)) + Answers(st, es, st')[s] ==
            Count(st.threads, Owing(s)) + Refusals(st, es, st')[s]
    decreases |es|
  {
    if es != [] {
      StepBalance(st, es[0], s);
      StepInside(st, es[0]);
      StepKeepsInv(st, es[0]);
      RunBalance(Apply(st, es[0]), es[1..], st', s);
    }
  }

  /** Along every run the refused sends of a session are those answered by a disconnect request and those
      whose thread still deletes the send or is about to make the request. */
  lemma RefusedSendsDisconnect(es: seq<Step>, st: State, s: SessionId)
    requires Run(Initial(), es, st)
    ensures Refusals(Initial(), es, st)[s] ==
            Answers(Initial(), es, st)[s]
            + |set t | t in st.threads && Owing(s)(st.threads[t])|
  {
    InitialInv();
    RunBalance(Initial(), es, st, s);
    CountNone(Initial().threads, Owing(s));
    assert Matching(st.threads, Owing(s)) == set t | t in st.threads && Owing(s)(st.threads[t]);
  }

  /** The request leaves the session disconnected. */
  lemma AnswerDisconnects(st: State, e: Step, s: SessionId)
    requires Enabled(st, e) && !Faults(st, e) && s in Answered(st, e)
    ensures s in Apply(st, e).sessions && !Apply(st, e).sessions[s].connected
  {
  }
}
