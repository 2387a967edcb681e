/** What later steps cannot undo: a posted context stays posted, a freed one freed, a context adrift adrift. */
module OwnershipHistory {
  import opened Counting
  import opened IoContexts
  import opened Ownership
  import opened OwnershipInvariant
  import opened OwnershipSteps
  import opened OwnershipAccounts
  import opened OwnershipTheorems

  lemma JobPosts(st: State, t: ThreadId, e: JobStep)
    requires AtJob(st, t, e)
    ensures var st' := ApplyJob(st, t, e); st'.posts == st.posts && st'.heap == st.heap && st'.freed == st.freed
  {
    if e.Dequeue? {
      assert ApplyJob(st, t, e) == ApplyDequeue(st, t, e.c, e.ret, e.transferred);
    } else if e.Classify? {
      assert ApplyJob(st, t, e) == ApplyClassify(st, t);
    }
  }

  lemma EnvPosts(st: State, e: EnvStep)
    requires EnvEnabled(st, e) && !EnvFaults(st, e)
    ensures var st' := ApplyEnv(st, e); st'.posts == st.posts && st'.heap == st.heap && st'.freed == st.freed
  {
  }

  // ----- a leaked context -----

  /** A context that holds its reference, was never posted and is in nobody's hands. */
  ghost predicate Adrift(st: State, c: CtxId) {
    && c in st.heap && !st.heap[c].released && c !in st.posts
    && (forall t :: t in st.threads ==> c !in Owned(st.threads[t]))
  }

  lemma JobAdrift(st: State, t: ThreadId, e: JobStep, c: CtxId)
    requires Port(st) && AtJob(st, t, e) && Adrift(st, c)
    ensures Adrift(ApplyJob(st, t, e), c) && ApplyJob(st, t, e).heap == st.heap
  {
    JobPosts(st, t, e);
    if !e.Connect? {
      JobQuiet(st, t, e);
      if e.Dequeue? {
        PostedWasPosted(st, e.c);
      }
      JobOwns(st, t, e, c);
    }
  }

  /** A job step takes over no context but the one it dequeues. */
  lemma JobOwns(st: State, t: ThreadId, e: JobStep, c: CtxId)
    requires AtJob(st, t, e) && c !in Owned(st.threads[t]) && (e.Dequeue? ==> e.c != c)
    ensures t in ApplyJob(st, t, e).threads && c !in Owned(ApplyJob(st, t, e).threads[t])
  {
    if e.Dequeue? {
      assert ApplyJob(st, t, e) == ApplyDequeue(st, t, e.c, e.ret, e.transferred);
    } else if e.Classify? {
      assert ApplyJob(st, t, e) == ApplyClassify(st, t);
    } else if e.FailReturn? || e.EndDispatch? {
      DeleteOwns(st, t, e, c);
    }
  }

  lemma DeleteOwns(st: State, t: ThreadId, e: JobStep, c: CtxId)
    requires AtJob(st, t, e) && c !in Owned(st.threads[t]) && (e.FailReturn? || e.EndDispatch?)
    ensures t in ApplyJob(st, t, e).threads && c !in Owned(ApplyJob(st, t, e).threads[t])
  {
    assert st.threads[t].job.ctx in Owned(st.threads[t]);
  }

  lemma PostedWasPosted(st: State, c: CtxId)
    requires Port(st) && c in st.posted
    ensures c in st.posts
  {
    assert st.posts[c] == st.posted[c] + st.dequeues[c];
  }

  lemma DeleteAdrift(st: State, t: ThreadId, e: CallStep, c: CtxId)
    requires AtCall(st, t, e) && Adrift(st, c) && (e.Release? || e.Free?)
    ensures Adrift(ApplyCall(st, t, e), c) && ApplyCall(st, t, e).heap[c] == st.heap[c]
  {
    CallQuiet(st, t, e);
    assert st.threads[t].call.ctx in Owned(st.threads[t]);
  }

  lemma ConstructAdrift(st: State, t: ThreadId, d: CtxId, wild: bool, c: CtxId)
    requires AtCall(st, t, Construct(d, wild)) && Adrift(st, c)
    ensures Adrift(ApplyConstruct(st, t, d, wild), c) && ApplyConstruct(st, t, d, wild).heap[c] == st.heap[c]
  {
  }

  lemma SubmitAdrift(st: State, t: ThreadId, answer: Answer, c: CtxId)
    requires AtCall(st, t, Submit(answer)) && Adrift(st, c)
    ensures Adrift(ApplySubmit(st, t, answer), c) && ApplySubmit(st, t, answer).heap[c] == st.heap[c]
  {
    assert st.threads[t].call.ctx in Owned(st.threads[t]);
  }

  lemma CallAdrift(st: State, t: ThreadId, e: CallStep, c: CtxId)
    requires AtCall(st, t, e) && Adrift(st, c)
    ensures Adrift(ApplyCall(st, t, e), c) && ApplyCall(st, t, e).heap[c] == st.heap[c]
  {
    match e
    case Exchange =>
    case Construct(d, wild) => ConstructAdrift(st, t, d, wild, c);
    case Submit(answer) => SubmitAdrift(st, t, answer, c);
    case Release => DeleteAdrift(st, t, e, c);
    case Free => DeleteAdrift(st, t, e, c);
  }

  lemma EnvAdrift(st: State, e: EnvStep, c: CtxId)
    requires EnvEnabled(st, e) && !EnvFaults(st, e) && Adrift(st, c)
    ensures Adrift(ApplyEnv(st, e), c) && ApplyEnv(st, e).heap == st.heap
  {
    EnvPosts(st, e);
  }

  lemma StepAdrift(st: State, e: Step, c: CtxId)
    requires Port(st) && Enabled(st, e) && !Faults(st, e) && Adrift(st, c)
    ensures Adrift(Apply(st, e), c) && Apply(st, e).heap[c] == st.heap[c]
  {
    match e
    case Env(env) => EnvAdrift(st, env, c);
    case OnJob(t, j) => JobAdrift(st, t, j, c);
    case OnCall(t, k) => CallAdrift(st, t, k, c);
  }

  /** A context that is adrift stays so in every run: it is never dequeued, released or freed, and its
      session is never released either. */
  lemma {:induction false} AdriftForever(st: State, es: seq<Step>, st': State, c: CtxId)
    requires Inv(st) && Run(st, es, st') && Adrift(st, c)
    ensures Adrift(st', c) && st'.heap[c] == st.heap[c] && !Dead(st', st.heap[c].session)
    decreases |es|
  {
    if es == [] {
      UnreleasedAlive(st, c);
    } else {
      StepAdrift(st, es[0], c);
      StepKeepsInv(st, es[0]);
      AdriftForever(Apply(st, es[0]), es[1..], st', c);
    }
  }

  // ----- any context -----

  /** What is known of context `c` in `a` and still holds in `b`. */
  ghost predicate LaterAt(a: State, b: State, c: CtxId) {
    && (c in a.posts ==> c in b.posts)
    && (c in a.freed ==> c in b.freed && b.freed[c] == a.freed[c] && (c !in a.posts ==> c !in b.posts))
    && (c in a.heap ==>
          || (c in b.heap && b.heap[c] == a.heap[c].(released := b.heap[c].released))
          || (c in b.freed && b.freed[c] == a.heap[c].cls))
    && (Adrift(a, c) ==> Adrift(b, c) && b.heap[c] == a.heap[c])
  }

  lemma SubmitLater(st: State, t: ThreadId, answer: Answer, c: CtxId)
    requires Shape(st) && AtCall(st, t, Submit(answer))
    ensures LaterAt(st, ApplySubmit(st, t, answer), c)
  {
    if Adrift(st, c) {
      SubmitAdrift(st, t, answer, c);
    }
  }

  lemma ConstructLater(st: State, t: ThreadId, d: CtxId, wild: bool, c: CtxId)
    requires AtCall(st, t, Construct(d, wild))
    ensures LaterAt(st, ApplyConstruct(st, t, d, wild), c)
  {
    if Adrift(st, c) {
      ConstructAdrift(st, t, d, wild, c);
    }
  }

  lemma ReleaseLater(st: State, t: ThreadId, c: CtxId)
    requires AtCall(st, t, Release)
    ensures LaterAt(st, ApplyRelease(st, t), c)
  {
    if Adrift(st, c) {
      DeleteAdrift(st, t, Release, c);
    }
  }

  lemma FreeLater(st: State, t: ThreadId, c: CtxId)
    requires Shape(st) && AtCall(st, t, Free)
    ensures LaterAt(st, ApplyFree(st, t), c)
  {
    if Adrift(st, c) {
      DeleteAdrift(st, t, Free, c);
    }
  }

  lemma CallLater(st: State, t: ThreadId, e: CallStep, c: CtxId)
    requires Shape(st) && AtCall(st, t, e)
    ensures LaterAt(st, ApplyCall(st, t, e), c)
  {
    match e
    case Exchange => if Adrift(st, c) { CallAdrift(st, t, e, c); }
    case Construct(d, wild) => ConstructLater(st, t, d, wild, c);
    case Submit(answer) => SubmitLater(st, t, answer, c);
    case Release => ReleaseLater(st, t, c);
    case Free => FreeLater(st, t, c);
  }

  lemma JobLater(st: State, t: ThreadId, e: JobStep, c: CtxId)
    requires Port(st) && AtJob(st, t, e)
    ensures LaterAt(st, ApplyJob(st, t, e), c)
  {
    JobPosts(st, t, e);
    if Adrift(st, c) {
      JobAdrift(st, t, e, c);
    }
  }

  lemma EnvLater(st: State, e: EnvStep, c: CtxId)
    requires EnvEnabled(st, e) && !EnvFaults(st, e)
    ensures LaterAt(st, ApplyEnv(st, e), c)
  {
    EnvPosts(st, e);
    if Adrift(st, c) {
      EnvAdrift(st, e, c);
    }
  }

  lemma StepLater(st: State, e: Step, c: CtxId)
    requires Shape(st) && Port(st) && Enabled(st, e) && !Faults(st, e)
    ensures LaterAt(st, Apply(st, e), c)
  {
    match e
    case Env(env) => EnvLater(st, env, c);
    case OnJob(t, j) => JobLater(st, t, j, c);
    case OnCall(t, k) => CallLater(st, t, k, c);
  }

  lemma LaterThen(a: State, b: State, d: State, c: CtxId)
    requires LaterAt(a, b, c) && LaterAt(b, d, c)
    ensures LaterAt(a, d, c)
  {
  }

  lemma {:induction false} RunLater(st: State, es: seq<Step>, st': State, c: CtxId)
    requires Inv(st) && Run(st, es, st')
    ensures LaterAt(st, st', c)
    decreases |es|
  {
    if es != [] {
      StepLater(st, es[0], c);
      StepKeepsInv(st, es[0]);
      RunLater(Apply(st, es[0]), es[1..], st', c);
      LaterThen(st, Apply(st, es[0]), st', c);
    }
  }

  /** A run that goes on from another one goes on from where that one ended. */
  lemma {:induction false} RunRest(st: State, es: seq<Step>, mid: State, es': seq<Step>, st': State)
    requires Run(st, es, mid) && Run(st, es', st') && es <= es'
    ensures Run(mid, es'[|es|..], st')
    decreases |es|
  {
    if es == [] {
      assert es'[0..] == es';
    } else {
      RunRest(Apply(st, es[0]), es[1..], mid, es'[1..], st');
      assert es'[1..][|es[1..]|..] == es'[|es|..];
    }
  }

  /** Whatever happened after the run `es` reached `a`, what was known of a context there still holds. */
  lemma TraceLater(es: seq<Step>, a: State, es': seq<Step>, b: State, c: CtxId)
    requires Run(Initial(), es, a) && Run(Initial(), es', b) && es <= es'
    ensures LaterAt(a, b, c)
  {
    RunRest(Initial(), es, a, es', b);
    ReachableInv(es, a);
    RunLater(a, es'[|es|..], b, c);
  }

  // ----- what became of a context that was built -----

  /** Context `c`, built for session `s` as a `cls` that offers `len` bytes, met with `answer`. */
  ghost predicate Settled(st: State, c: CtxId, s: SessionId, cls: ContextClass, len: nat, answer: Answer) {
    match answer
    case Accepted =>
      && c in st.posts && (c in st.heap || c in st.freed) && (c in st.freed ==> st.freed[c] == cls)
      && (c in st.heap ==> st.heap[c].session == s && st.heap[c].cls == cls && st.heap[c].offered == len)
    case Refused => c in st.freed && st.freed[c] == cls && c !in st.posts
    case Leaked =>
      && c in st.heap && !st.heap[c].released && c !in st.posts
      && (forall t :: t in st.threads ==> c !in Owned(st.threads[t]))
      && st.heap[c].session == s && st.heap[c].cls == cls && st.heap[c].offered == len
  }

  lemma StaysSettled(
      a: State, b: State, c: CtxId, s: SessionId, cls: ContextClass, len: nat, answer: Answer)
    requires LaterAt(a, b, c) && Settled(a, c, s, cls, len, answer) && Shape(b) && Shape(a)
    ensures Settled(b, c, s, cls, len, answer)
  {
    if answer == Leaked {
      assert Adrift(a, c);
    }
  }

  /** Submission settles a context, unless it is refused and still has to be deleted. */
  lemma SubmitSettles(st: State, t: ThreadId, answer: Answer)
    requires Shape(st) && Threads(st) && AtCall(st, t, Submit(answer)) && answer != Refused
    ensures var c := st.threads[t].call.ctx; var x := st.heap[c];
      Settled(ApplySubmit(st, t, answer), c, x.session, x.cls, x.offered, answer)
  {
    var c := st.threads[t].call.ctx;
    assert ThreadOk(st, st.threads[t]);
    forall u | u in st.threads && u != t
      ensures c !in Owned(st.threads[u])
    {
      assert Apart(st.threads[t], st.threads[u]);
    }
  }
}
