/** Exactly which sends and receives reach the dispatch, over every run. */
module OwnershipDispatch {
  import opened Counting
  import opened IoContexts
  import opened Ownership
  import opened OwnershipInvariant
  import opened OwnershipSteps
  import opened OwnershipAccounts
  import opened OwnershipTheorems

  /** A send or receive comes off the port: the call succeeded and moved bytes. */
  function Succeeds(st: State, e: Step): multiset<CtxId>
    requires Enabled(st, e) && !Faults(st, e)
  {
    if && e.OnJob? && e.jobStep.Dequeue?
       && (st.heap[e.jobStep.c].cls == SendContext || st.heap[e.jobStep.c].cls == RecvContext)
       && e.jobStep.ret && e.jobStep.transferred > 0
    then multiset{e.jobStep.c} else multiset{}
  }

  /** A send or receive is handed to the dispatch. */
  function Dispatches(st: State, e: Step): multiset<CtxId>
    requires Enabled(st, e) && !Faults(st, e)
  {
    if && e.OnJob? && e.jobStep.Classify?
       && (|| st.heap[st.threads[e.t].job.ctx].cls == SendContext
           || st.heap[st.threads[e.t].job.ctx].cls == RecvContext)
       && ApplyClassify(st, e.t).threads[e.t].job.Dispatching?
    then multiset{st.threads[e.t].job.ctx} else multiset{}
  }

  ghost function Successes(st: State, es: seq<Step>, st': State): multiset<CtxId>
    requires Run(st, es, st')
    decreases |es|
  {
    if es == [] then multiset{} else Succeeds(st, es[0]) + Successes(Apply(st, es[0]), es[1..], st')
  }

  ghost function Dispatched(st: State, es: seq<Step>, st': State): multiset<CtxId>
    requires Run(st, es, st')
    decreases |es|
  {
    if es == [] then multiset{} else Dispatches(st, es[0]) + Dispatched(Apply(st, es[0]), es[1..], st')
  }

  /** A thread between taking the successful transfer `c` off the port and handing it on. */
  function Underway(c: CtxId): Thread -> bool {
    (th: Thread) => th.job.Classifying? && th.job.ctx == c && th.job.transfer && !th.job.failed
  }

  lemma Moved(threads: map<ThreadId, Thread>, t: ThreadId, th': Thread, c: CtxId, more: int)
    requires t in threads && Weight(Underway(c)(th')) == Weight(Underway(c)(threads[t])) + more
    ensures Count(threads[t := th'], Underway(c)) == Count(threads, Underway(c)) + more
  {
    CountUpdate(threads, t, th', Underway(c));
  }

  lemma DequeueBalance(st: State, t: ThreadId, d: CtxId, ret: bool, transferred: nat, c: CtxId)
    requires Shape(st) && AtJob(st, t, Dequeue(d, ret, transferred))
    ensures Count(ApplyDequeue(st, t, d, ret, transferred).threads, Underway(c)) ==
            Count(st.threads, Underway(c)) + Succeeds(st, OnJob(t, Dequeue(d, ret, transferred)))[c]
  {
    var th' := ApplyDequeue(st, t, d, ret, transferred).threads[t];
    Moved(st.threads, t, th', c, Succeeds(st, OnJob(t, Dequeue(d, ret, transferred)))[c]);
  }

  lemma ClassifyBalance(st: State, t: ThreadId, c: CtxId)
    requires Shape(st) && AtJob(st, t, Classify) && JobOk(st, st.threads[t].job)
    ensures Count(ApplyClassify(st, t).threads, Underway(c)) ==
            Count(st.threads, Underway(c)) - Dispatches(st, OnJob(t, Classify))[c]
  {
    Moved(st.threads, t, ApplyClassify(st, t).threads[t], c, -(Dispatches(st, OnJob(t, Classify))[c] as int));
  }

  lemma QuietJobBalance(st: State, t: ThreadId, e: JobStep, c: CtxId)
    requires AtJob(st, t, e) && !e.Dequeue? && !e.Classify? && !e.Connect?
    ensures Count(ApplyJob(st, t, e).threads, Underway(c)) == Count(st.threads, Underway(c))
  {
    JobQuiet(st, t, e);
    Moved(st.threads, t, ApplyJob(st, t, e).threads[t], c, 0);
  }

  lemma CallMoves(st: State, t: ThreadId, e: CallStep)
    requires AtCall(st, t, e) && Fits(st.threads[t].job, st.threads[t].call)
    ensures var threads' := ApplyCall(st, t, e).threads;
      t in threads' && threads' == st.threads[t := threads'[t]] && !threads'[t].job.Classifying?
  {
    CallQuiet(st, t, e);
  }

  lemma CallBalance(st: State, t: ThreadId, e: CallStep, c: CtxId)
    requires AtCall(st, t, e) && Fits(st.threads[t].job, st.threads[t].call)
    ensures Count(ApplyCall(st, t, e).threads, Underway(c)) == Count(st.threads, Underway(c))
  {
    CallMoves(st, t, e);
    Moved(st.threads, t, ApplyCall(st, t, e).threads[t], c, 0);
  }

  lemma EnvBalance(st: State, e: EnvStep, c: CtxId)
    requires EnvEnabled(st, e) && !EnvFaults(st, e)
    ensures Count(ApplyEnv(st, e).threads, Underway(c)) == Count(st.threads, Underway(c))
  {
    if e.NewThread? {
      CountUpdate(st.threads, e.t, Thread(Idle, NoCall), Underway(c));
    }
  }

  lemma JobBalance(st: State, t: ThreadId, e: JobStep, c: CtxId)
    requires Shape(st) && AtJob(st, t, e) && JobOk(st, st.threads[t].job)
    ensures Count(ApplyJob(st, t, e).threads, Underway(c)) + Dispatches(st, OnJob(t, e))[c] ==
            Count(st.threads, Underway(c)) + Succeeds(st, OnJob(t, e))[c]
  {
    if e.Dequeue? {
      DequeueBalance(st, t, e.c, e.ret, e.transferred, c);
    } else if e.Classify? {
      ClassifyBalance(st, t, c);
    } else if !e.Connect? {
      QuietJobBalance(st, t, e, c);
    }
  }

  lemma StepBalance(st: State, e: Step, c: CtxId)
    requires Shape(st) && Threads(st) && Enabled(st, e) && !Faults(st, e)
    ensures Count(Apply(st, e).threads, Underway(c)) + Dispatches(st, e)[c] ==
            Count(st.threads, Underway(c)) + Succeeds(st, e)[c]
  {
    match e
    case Env(env) => EnvBalance(st, env, c);
    case OnJob(t, j) =>
      assert ThreadOk(st, st.threads[t]);
      JobBalance(st, t, j, c);
    case OnCall(t, k) =>
      assert ThreadOk(st, st.threads[t]);
      CallBalance(st, t, k, c);
  }

  lemma {:induction false} RunBalance(st: State, es: seq<Step>, st': State, c: CtxId)
    requires Inv(st) && Run(st, es, st')
    ensures Count(st'.threads, Underway(c)) + Dispatched(st, es, st')[c] ==
            Count(st.threads, Underway(c)) + Successes(st, es, st')[c]
    decreases |es|
  {
    if es != [] {
      StepBalance(st, es[0], c);
      StepKeepsInv(st, es[0]);
      RunBalance(Apply(st, es[0]), es[1..], st', c);
    }
  }

  /** In every run a send or receive that was taken off the port and classified was dispatched if and
      only if its call succeeded and moved bytes. */
  lemma TransferDispatchedExactly(es: seq<Step>, st: State, c: CtxId)
    requires Run(Initial(), es, st)
    requires forall t :: t in st.threads ==> !(st.threads[t].job.Classifying? && st.threads[t].job.ctx == c)
    ensures c in Dispatched(Initial(), es, st) <==> c in Successes(Initial(), es, st)
  {
    InitialInv();
    RunBalance(Initial(), es, st, c);
    CountNone(st.threads, Underway(c));
    CountNone(Initial().threads, Underway(c));
  }

  /** A receive was offered no buffer, so it never succeeds. */
  lemma ReceiveNeverSucceeds(st: State, e: Step)
    requires Inv(st) && Enabled(st, e) && !Faults(st, e) && e.OnJob? && e.jobStep.Dequeue?
    requires st.heap[e.jobStep.c].cls == RecvContext
    ensures Succeeds(st, e) == multiset{}
  {
    assert Offers(st.heap[e.jobStep.c].cls, st.heap[e.jobStep.c].offered);
  }
}
