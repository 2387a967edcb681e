/** The contexts deleted for failures are exactly the failed transfers taken off the port. */
module OwnershipFailures {
  import opened Counting
  import opened IoContexts
  import opened Ownership
  import opened OwnershipInvariant
  import opened OwnershipSteps
  import opened OwnershipAccounts
  import opened OwnershipTheorems

  /** A send or receive comes off the port that failed or moved no byte. */
  function Fails(st: State, e: Step): multiset<CtxId>
    requires Enabled(st, e) && !Faults(st, e)
  {
    if && e.OnJob? && e.jobStep.Dequeue?
       && (st.heap[e.jobStep.c].cls == SendContext || st.heap[e.jobStep.c].cls == RecvContext)
       && (!e.jobStep.ret || e.jobStep.transferred == 0)
    then multiset{e.jobStep.c} else multiset{}
  }

  /** The failure branch of DoIocpJob frees its context. */
  function Deletes(st: State, e: Step): multiset<CtxId>
    requires Enabled(st, e) && !Faults(st, e)
  {
    if e.OnCall? && e.callStep.Free? && st.threads[e.t].job == Ending(true)
    then multiset{st.threads[e.t].call.ctx} else multiset{}
  }

  ghost function Failures(st: State, es: seq<Step>, st': State): multiset<CtxId>
    requires Run(st, es, st')
    decreases |es|
  {
    if es == [] then multiset{} else Fails(st, es[0]) + Failures(Apply(st, es[0]), es[1..], st')
  }

  ghost function Deletions(st: State, es: seq<Step>, st': State): multiset<CtxId>
    requires Run(st, es, st')
    decreases |es|
  {
    if es == [] then multiset{} else Deletes(st, es[0]) + Deletions(Apply(st, es[0]), es[1..], st')
  }

  /** A thread between taking the failed transfer `c` off the port and freeing it. */
  function InHand(c: CtxId): Thread -> bool {
    (th: Thread) =>
      || (th.job.Classifying? && th.job.ctx == c && th.job.transfer && th.job.failed)
      || (th.job.Failing? && th.job.ctx == c)
      || (th.job == Ending(true) && (th.call.Releasing? || th.call.Freeing?) && th.call.ctx == c)
  }

  lemma Moved(threads: map<ThreadId, Thread>, t: ThreadId, th': Thread, c: CtxId, more: int)
    requires t in threads && Weight(InHand(c)(th')) == Weight(InHand(c)(threads[t])) + more
    ensures Count(threads[t := th'], InHand(c)) == Count(threads, InHand(c)) + more
  {
    CountUpdate(threads, t, th', InHand(c));
  }

  lemma DequeueBalance(st: State, t: ThreadId, d: CtxId, ret: bool, transferred: nat, c: CtxId)
    requires Shape(st) && AtJob(st, t, Dequeue(d, ret, transferred))
    ensures Count(ApplyDequeue(st, t, d, ret, transferred).threads, InHand(c)) ==
            Count(st.threads, InHand(c)) + Fails(st, OnJob(t, Dequeue(d, ret, transferred)))[c]
  {
    var th' := ApplyDequeue(st, t, d, ret, transferred).threads[t];
    Moved(st.threads, t, th', c, Fails(st, OnJob(t, Dequeue(d, ret, transferred)))[c]);
  }

  lemma ClassifyBalance(st: State, t: ThreadId, c: CtxId)
    requires Shape(st) && AtJob(st, t, Classify) && JobOk(st, st.threads[t].job)
    ensures Count(ApplyClassify(st, t).threads, InHand(c)) == Count(st.threads, InHand(c))
  {
    Moved(st.threads, t, ApplyClassify(st, t).threads[t], c, 0);
  }

  lemma QuietJobBalance(st: State, t: ThreadId, e: JobStep, c: CtxId)
    requires AtJob(st, t, e) && !e.Dequeue? && !e.Classify? && !e.Connect?
    ensures Count(ApplyJob(st, t, e).threads, InHand(c)) == Count(st.threads, InHand(c))
  {
    JobQuiet(st, t, e);
    Moved(st.threads, t, ApplyJob(st, t, e).threads[t], c, 0);
  }

  lemma JobBalance(st: State, t: ThreadId, e: JobStep, c: CtxId)
    requires Shape(st) && AtJob(st, t, e) && JobOk(st, st.threads[t].job)
    ensures Count(ApplyJob(st, t, e).threads, InHand(c)) == Count(st.threads, InHand(c)) + Fails(st, OnJob(t, e))[c]
  {
    if e.Dequeue? {
      DequeueBalance(st, t, e.c, e.ret, e.transferred, c);
    } else if e.Classify? {
      ClassifyBalance(st, t, c);
    } else if !e.Connect? {
      QuietJobBalance(st, t, e, c);
    }
  }

  lemma FreeBalance(st: State, t: ThreadId, c: CtxId)
    requires AtCall(st, t, Free) && Fits(st.threads[t].job, st.threads[t].call)
    ensures Count(ApplyFree(st, t).threads, InHand(c)) + Deletes(st, OnCall(t, Free))[c] == Count(st.threads, InHand(c))
  {
    Moved(st.threads, t, ApplyFree(st, t).threads[t], c, -(Deletes(st, OnCall(t, Free))[c] as int));
  }

  lemma ReleaseBalance(st: State, t: ThreadId, c: CtxId)
    requires AtCall(st, t, Release)
    ensures Count(ApplyRelease(st, t).threads, InHand(c)) == Count(st.threads, InHand(c))
  {
    Moved(st.threads, t, ApplyRelease(st, t).threads[t], c, 0);
  }

  lemma CreateBalance(st: State, t: ThreadId, e: CallStep, c: CtxId)
    requires AtCall(st, t, e) && Fits(st.threads[t].job, st.threads[t].call) && !e.Release? && !e.Free?
    ensures Count(ApplyCall(st, t, e).threads, InHand(c)) == Count(st.threads, InHand(c))
  {
    CallQuiet(st, t, e);
    Moved(st.threads, t, ApplyCall(st, t, e).threads[t], c, 0);
  }

  lemma CallBalance(st: State, t: ThreadId, e: CallStep, c: CtxId)
    requires AtCall(st, t, e) && Fits(st.threads[t].job, st.threads[t].call)
    ensures Count(ApplyCall(st, t, e).threads, InHand(c)) + Deletes(st, OnCall(t, e))[c] ==
            Count(st.threads, InHand(c))
  {
    if e.Free? {
      FreeBalance(st, t, c);
    } else if e.Release? {
      ReleaseBalance(st, t, c);
    } else {
      CreateBalance(st, t, e, c);
    }
  }

  lemma EnvBalance(st: State, e: EnvStep, c: CtxId)
    requires EnvEnabled(st, e) && !EnvFaults(st, e)
    ensures Count(ApplyEnv(st, e).threads, InHand(c)) == Count(st.threads, InHand(c))
  {
    if e.NewThread? {
      CountUpdate(st.threads, e.t, Thread(Idle, NoCall), InHand(c));
    }
  }

  lemma StepBalance(st: State, e: Step, c: CtxId)
    requires Shape(st) && Threads(st) && Enabled(st, e) && !Faults(st, e)
    ensures Count(Apply(st, e).threads, InHand(c)) + Deletes(st, e)[c] == Count(st.threads, InHand(c)) + Fails(st, e)[c]
  {
    match e
    case Env(env) => EnvBalance(st, env, c);
    case OnJob(t, j) =>
      assert ThreadOk(st, st.threads[t]);
      JobBalance(st, t, j, c);
    case OnCall(t, k) =>
      assert ThreadOk(st, st.threads[t]);
      CallBalance(st, t, k, c);
  }

  /** Along every run the failed transfers taken off the port are those deleted and those in hand. */
  lemma {:induction false} FailureBalance(st: State, es: seq<Step>, st': State, c: CtxId)
    requires Inv(st) && Run(st, es, st')
    ensures Count(st'.threads, InHand(c)) + Deletions(st, es, st')[c] ==
            Count(st.threads, InHand(c)) + Failures(st, es, st')[c]
    decreases |es|
  {
    if es != [] {
      StepBalance(st, es[0], c);
      StepKeepsInv(st, es[0]);
      FailureBalance(Apply(st, es[0]), es[1..], st', c);
    }
  }

  /** In every run, once no failure handling is in progress, the contexts the failure branch freed are
      exactly the failed transfers taken off the port. */
  lemma FailedTransfersDeleted(es: seq<Step>, st: State)
    requires Run(Initial(), es, st) && NoFailureInProgress(st)
    ensures Deletions(Initial(), es, st) == Failures(Initial(), es, st)
  {
    InitialInv();
    forall c: CtxId
      ensures Deletions(Initial(), es, st)[c] == Failures(Initial(), es, st)[c]
    {
      FailureBalance(Initial(), es, st, c);
      CountNone(st.threads, InHand(c));
      CountNone(Initial().threads, InHand(c));
    }
  }
}
