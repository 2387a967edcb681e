/** DoIocpJob, DisconnectRequest and DeleteIoContext as imperative code, run by one thread while
    all others interfere between its steps. */
module WorkerThread {
  import opened IoContexts
  import opened Ownership
  import opened OwnershipInvariant
  import opened OwnershipSteps
  import opened OwnershipAccounts
  import opened OwnershipTheorems
  import opened OwnershipHistory

  // ----- what interference leaves alone -----

  /** A step of another thread or of the environment. */
  predicate Foreign(e: Step, me: ThreadId) {
    if e.Env? then e.env != NewThread(me) else e.t != me
  }

  /** What thread `me` may still rely on after others have run: its place and its contexts. */
  ghost predicate Kept(a: State, b: State, me: ThreadId) {
    && me in a.threads && me in b.threads && b.threads[me] == a.threads[me]
    && (forall c :: c in Owned(a.threads[me]) ==> c in a.heap && c in b.heap && b.heap[c] == a.heap[c])
  }

  /** A step that changes at most context `c`, which `me` does not own, keeps what `me` relies on. */
  lemma KeptUnless(st: State, st': State, me: ThreadId, c: CtxId)
    requires me in st.threads && ThreadOk(st, st.threads[me]) && c !in Owned(st.threads[me])
    requires me in st'.threads && st'.threads[me] == st.threads[me] && st'.outside == st.outside
    requires forall d :: d in st.heap && d != c ==> d in st'.heap && st'.heap[d] == st.heap[d]
    ensures Kept(st, st', me)
  {
  }

  lemma KeptSame(st: State, st': State, me: ThreadId)
    requires me in st.threads && ThreadOk(st, st.threads[me])
    requires me in st'.threads && st'.threads[me] == st.threads[me]
    requires st'.outside == st.outside && st'.heap == st.heap
    ensures Kept(st, st', me)
  {
  }

  lemma EnvKeeps(st: State, e: EnvStep, me: ThreadId)
    requires Threads(st) && EnvEnabled(st, e) && !EnvFaults(st, e) && me in st.threads
    ensures Kept(st, ApplyEnv(st, e), me)
  {
    assert ThreadOk(st, st.threads[me]);
  }

  lemma JobMovesOne(st: State, t: ThreadId, e: JobStep, me: ThreadId)
    requires AtJob(st, t, e) && me in st.threads && t != me
    ensures me in ApplyJob(st, t, e).threads && ApplyJob(st, t, e).threads[me] == st.threads[me]
    ensures ApplyJob(st, t, e).heap == st.heap && ApplyJob(st, t, e).outside == st.outside
  {
    match e
    case Dequeue(c, ret, transferred) => assert ApplyJob(st, t, e) == ApplyDequeue(st, t, c, ret, transferred);
    case Classify => assert ApplyJob(st, t, e) == ApplyClassify(st, t);
    case _ =>
  }

  lemma JobKeeps(st: State, t: ThreadId, e: JobStep, me: ThreadId)
    requires Threads(st) && AtJob(st, t, e) && me in st.threads && t != me
    ensures Kept(st, ApplyJob(st, t, e), me)
  {
    assert ThreadOk(st, st.threads[me]);
    JobMovesOne(st, t, e, me);
    KeptSame(st, ApplyJob(st, t, e), me);
  }

  lemma DeleteKeeps(st: State, t: ThreadId, e: CallStep, me: ThreadId)
    requires AtCall(st, t, e) && me in st.threads && t != me && (e.Release? || e.Free?)
    requires ThreadOk(st, st.threads[me]) && Apart(st.threads[t], st.threads[me])
    ensures Kept(st, ApplyCall(st, t, e), me)
  {
    KeptUnless(st, ApplyCall(st, t, e), me, st.threads[t].call.ctx);
  }

  lemma ConstructKeeps(st: State, t: ThreadId, c: CtxId, wild: bool, me: ThreadId)
    requires AtCall(st, t, Construct(c, wild)) && me in st.threads && t != me && ThreadOk(st, st.threads[me])
    ensures Kept(st, ApplyConstruct(st, t, c, wild), me)
  {
    KeptUnless(st, ApplyConstruct(st, t, c, wild), me, c);
  }

  lemma SubmitKeeps(st: State, t: ThreadId, answer: Answer, me: ThreadId)
    requires AtCall(st, t, Submit(answer)) && me in st.threads && t != me && ThreadOk(st, st.threads[me])
    ensures Kept(st, ApplySubmit(st, t, answer), me)
  {
    KeptSame(st, ApplySubmit(st, t, answer), me);
  }

  lemma CreateKeeps(st: State, t: ThreadId, e: CallStep, me: ThreadId)
    requires AtCall(st, t, e) && me in st.threads && t != me && !e.Release? && !e.Free?
    requires ThreadOk(st, st.threads[me])
    ensures Kept(st, ApplyCall(st, t, e), me)
  {
    match e
    case Exchange => KeptSame(st, ApplyExchange(st, t), me);
    case Construct(c, wild) => ConstructKeeps(st, t, c, wild, me);
    case Submit(answer) => SubmitKeeps(st, t, answer, me);
  }

  lemma CallKeeps(st: State, t: ThreadId, e: CallStep, me: ThreadId)
    requires Threads(st) && AtCall(st, t, e) && me in st.threads && t != me
    ensures Kept(st, ApplyCall(st, t, e), me)
  {
    assert ThreadOk(st, st.threads[me]) && Apart(st.threads[t], st.threads[me]);
    if e.Release? || e.Free? {
      DeleteKeeps(st, t, e, me);
    } else {
      CreateKeeps(st, t, e, me);
    }
  }

  /** No step of another thread touches what `me` owns. */
  lemma ForeignKeeps(st: State, e: Step, me: ThreadId)
    requires Threads(st) && Enabled(st, e) && !Faults(st, e) && me in st.threads && Foreign(e, me)
    ensures Kept(st, Apply(st, e), me)
  {
    match e
    case Env(env) => EnvKeeps(st, env, me);
    case OnJob(t, j) => JobKeeps(st, t, j, me);
    case OnCall(t, c) => CallKeeps(st, t, c, me);
  }

  /** The job of `me` and the context it handles are as before; only its session call has moved. */
  ghost predicate JobKept(a: State, b: State, me: ThreadId) {
    && me in a.threads && me in b.threads && b.threads[me].job == a.threads[me].job
    && (forall c :: c in JobCtx(a.threads[me].job) ==> c in a.heap && c in b.heap && b.heap[c] == a.heap[c])
  }

  lemma KeptTrans(a: State, b: State, c: State, me: ThreadId)
    requires Kept(a, b, me) && Kept(b, c, me)
    ensures Kept(a, c, me)
  {
  }

  lemma JobKeptThen(a: State, b: State, c: State, me: ThreadId)
    requires JobKept(a, b, me) && (Kept(b, c, me) || JobKept(b, c, me))
    ensures JobKept(a, c, me)
  {
    assert JobCtx(a.threads[me].job) <= Owned(b.threads[me]);
  }

  /** A call step leaves the job and its context alone, unless it frees the job's own context. */
  lemma CallKeepsJob(st: State, me: ThreadId, e: CallStep)
    requires AtCall(st, me, e) && ThreadOk(st, st.threads[me]) && !st.threads[me].job.Ending?
    ensures JobKept(st, ApplyCall(st, me, e), me)
  {
    CallQuiet(st, me, e);
    CallKeepsCtx(st, me, e);
  }

  /** A call step changes no context but the call's own and a fresh one. */
  lemma CallKeepsCtx(st: State, t: ThreadId, e: CallStep)
    requires AtCall(st, t, e)
    ensures forall c :: c in st.heap && c !in CallCtx(st.threads[t].call) ==>
      c in ApplyCall(st, t, e).heap && ApplyCall(st, t, e).heap[c] == st.heap[c]
  {
    match e
    case Exchange => assert ApplyCall(st, t, e) == ApplyExchange(st, t);
    case Construct(c, wild) => assert ApplyCall(st, t, e) == ApplyConstruct(st, t, c, wild);
    case Submit(answer) => assert ApplyCall(st, t, e) == ApplySubmit(st, t, answer);
    case Release => assert ApplyCall(st, t, e) == ApplyRelease(st, t);
    case Free => assert ApplyCall(st, t, e) == ApplyFree(st, t);
  }

  // ----- runs -----

  lemma ReachableThread(es: seq<Step>, st: State, me: ThreadId)
    requires Run(Initial(), es, st) && me in st.threads
    ensures ThreadOk(st, st.threads[me])
  {
    ReachableInv(es, st);
  }

  lemma ReachableCall(es: seq<Step>, st: State, me: ThreadId, e: CallStep, st': State)
    requires Run(Initial(), es, st) && AtCall(st, me, e)
    requires Kept(ApplyCall(st, me, e), st', me)
    ensures !st.threads[me].job.Ending? ==> JobKept(st, st', me)
  {
    if !st.threads[me].job.Ending? {
      ReachableThread(es, st, me);
      CallKeepsJob(st, me, e);
      JobKeptThen(st, ApplyCall(st, me, e), st', me);
    }
  }

  /** A context built since `a`, and what became of it. */
  ghost predicate NewlySettled(
      a: State, b: State, c: CtxId, s: SessionId, cls: ContextClass, len: nat, answer: Answer) {
    c !in a.heap && c !in a.freed && Settled(b, c, s, cls, len, answer)
  }

  lemma ReachableSettled(es: seq<Step>, st: State, me: ThreadId, answer: Answer, es': seq<Step>, st': State)
    requires Run(Initial(), es, st) && AtCall(st, me, Submit(answer)) && answer != Refused
    requires Run(Initial(), es', st') && es + [OnCall(me, Submit(answer))] <= es'
    ensures var c := st.threads[me].call.ctx; var x := st.heap[c];
      Settled(st', c, x.session, x.cls, x.offered, answer)
  {
    var c := st.threads[me].call.ctx;
    var x, mid := st.heap[c], ApplySubmit(st, me, answer);
    ReachableInv(es, st);
    SubmitSettles(st, me, answer);
    RunExtend(Initial(), es, st, OnCall(me, Submit(answer)));
    ReachableLater(es + [OnCall(me, Submit(answer))], mid, es', st', c, x.session, x.cls, x.offered, answer);
  }

  lemma ReachableLater(
      es: seq<Step>, a: State, es': seq<Step>, b: State,
      c: CtxId, s: SessionId, cls: ContextClass, len: nat, answer: Answer)
    requires Run(Initial(), es, a) && Run(Initial(), es', b) && es <= es'
    requires Settled(a, c, s, cls, len, answer)
    ensures Settled(b, c, s, cls, len, answer)
  {
    ReachableInv(es, a);
    ReachableInv(es', b);
    TraceLater(es, a, es', b, c);
    StaysSettled(a, b, c, s, cls, len, answer);
  }

  lemma ReachableForeign(es: seq<Step>, st: State, e: Step, me: ThreadId)
    requires Run(Initial(), es, st) && Enabled(st, e) && !Faults(st, e) && me in st.threads && Foreign(e, me)
    ensures Kept(st, Apply(st, e), me)
  {
    ReachableInv(es, st);
    ForeignKeeps(st, e, me);
  }

  lemma {:induction false} FreshExists(s: set<nat>) returns (n: nat)
    ensures forall x :: x in s ==> x < n
  {
    n := 0;
    if x: nat :| x in s {
      var m := FreshExists(s - {x});
      n := if x < m then m else x + 1;
      assert s == s - {x} + {x};
    }
  }

  /** What is left when other threads take the steps `others`, as far as they are theirs, possible and do
      not end the process. */
  function Preempted(st: State, me: ThreadId, others: seq<Step>): State
    decreases |others|
  {
    if others == [] then st
    else
      var e := others[|others| - 1];
      var before := Preempted(st, me, others[..|others| - 1]);
      if Foreign(e, me) && Enabled(before, e) && !Faults(before, e) then Apply(before, e) else before
  }

  lemma PreemptedNext(st: State, me: ThreadId, others: seq<Step>, i: nat)
    requires i < |others|
    ensures var before, e := Preempted(st, me, others[..i]), others[i];
      Preempted(st, me, others[..i + 1]) ==
      if Foreign(e, me) && Enabled(before, e) && !Faults(before, e) then Apply(before, e) else before
  {
    assert others[..i + 1][..i] == others[..i];
  }

  /** Nothing the others can do is left out. */
  lemma {:induction false} RunPreempts(st: State, me: ThreadId, others: seq<Step>, st': State)
    requires Run(st, others, st') && forall i :: 0 <= i < |others| ==> Foreign(others[i], me)
    ensures Preempted(st, me, others) == st'
    decreases |others|
  {
    if others != [] {
      var front, e := others[..|others| - 1], others[|others| - 1];
      var before := RunFront(st, others, st');
      RunPreempts(st, me, front, before);
    }
  }

  lemma {:induction false} RunFront(st: State, es: seq<Step>, st': State) returns (before: State)
    requires es != [] && Run(st, es, st')
    ensures var e := es[|es| - 1];
      Run(st, es[..|es| - 1], before) && Enabled(before, e) && !Faults(before, e) && Apply(before, e) == st'
    decreases |es|
  {
    if |es| == 1 {
      before := st;
    } else {
      before := RunFront(Apply(st, es[0]), es[1..], st');
      assert es[..|es| - 1][1..] == es[1..][..|es[1..]| - 1];
    }
  }

  datatype Outcome = TimedOut | Crashed | Disconnected | Dispatched

  /** The shared memory of the process. `schedule` is the scheduler's choice: what the other
      threads do each time this one can be preempted. `trace` is the run that led here. */
  class Server {
    var st: State
    var schedule: seq<seq<Step>>
    ghost var trace: seq<Step>

    ghost predicate Valid()
      reads this
    {
      Run(Initial(), trace, st)
    }

    constructor (schedule: seq<seq<Step>>)
      ensures Valid() && st == Initial() && this.schedule == schedule
    {
      st := Initial();
      this.schedule := schedule;
      trace := [];
    }

    /** Other threads run: the steps scheduled next, as far as they are theirs, possible and do not crash
        the process. */
    method Interfere(me: ThreadId)
      requires Valid() && me in st.threads
      modifies this
      ensures Valid() && old(trace) <= trace && Kept(old(st), st, me)
      ensures old(schedule) == [] ==> schedule == [] && st == old(st)
      ensures old(schedule) != [] ==>
        schedule == old(schedule)[1..] && st == Preempted(old(st), me, old(schedule)[0])
    {
      ReachableThread(trace, st, me);
      if schedule != [] {
        var others := schedule[0];
        schedule := schedule[1..];
        Preempt(me, others);
      }
    }

    method Preempt(me: ThreadId, others: seq<Step>)
      requires Valid() && me in st.threads && ThreadOk(st, st.threads[me])
      modifies this`st, this`trace
      ensures Valid() && old(trace) <= trace && Kept(old(st), st, me) && st == Preempted(old(st), me, others)
    {
      for i := 0 to |others|
        invariant Valid() && old(trace) <= trace && Kept(old(st), st, me)
        invariant st == Preempted(old(st), me, others[..i])
      {
        var e := others[i];
        PreemptedNext(old(st), me, others, i);
        if Foreign(e, me) && Enabled(st, e) && !Faults(st, e) {
          ReachableForeign(trace, st, e, me);
          RunExtend(Initial(), trace, st, e);
          KeptTrans(old(st), st, Apply(st, e), me);
          st, trace := Apply(st, e), trace + [e];
        }
      }
      assert others[..|others|] == others;
    }

    /** One step; a fault ends the process, and happens exactly on a hazard. */
    method Take(e: Step) returns (crashed: bool)
      requires Valid() && Enabled(st, e)
      modifies this`st, this`trace
      ensures Valid() && old(trace) <= trace
      ensures crashed <==> Hazard(old(st), e)
      ensures crashed <==> Faults(old(st), e)
      ensures st == if crashed then old(st) else Apply(old(st), e)
      ensures trace == if crashed then old(trace) else old(trace) + [e]
    {
      FaultsExactlyOnHazards(trace, st, e);
      crashed := Faults(st, e);
      if !crashed {
        RunExtend(Initial(), trace, st, e);
        st, trace := Apply(st, e), trace + [e];
      }
    }

    method TakeCall(me: ThreadId, e: CallStep) returns (crashed: bool)
      requires Valid() && me in st.threads && CallEnabled(st, st.threads[me].call, e)
      modifies this`st, this`trace
      ensures Valid() && old(trace) <= trace
      ensures crashed <==> Hazard(old(st), OnCall(me, e))
      ensures crashed ==> st == old(st)
      ensures !crashed ==> AtCall(old(st), me, e) && st == ApplyCall(old(st), me, e) && me in st.threads
      ensures trace == if crashed then old(trace) else old(trace) + [OnCall(me, e)]
    {
      ghost var before := st;
      crashed := Take(OnCall(me, e));
      if !crashed {
        CallMovesOne(before, me, e);
      }
    }

    /** A step inside a session call of `me`, followed by interference. */
    method Call(me: ThreadId, e: CallStep) returns (crashed: bool)
      requires Valid() && me in st.threads && CallEnabled(st, st.threads[me].call, e)
      modifies this
      ensures Valid() && old(trace) <= trace
      ensures crashed <==> Hazard(old(st), OnCall(me, e))
      ensures crashed ==> st == old(st)
      ensures !crashed ==> old(trace) + [OnCall(me, e)] <= trace
      ensures !crashed ==> AtCall(old(st), me, e) && Kept(ApplyCall(old(st), me, e), st, me)
      ensures !crashed && !old(st).threads[me].job.Ending? ==> JobKept(old(st), st, me)
    {
      ghost var before := st;
      crashed := TakeCall(me, e);
      if !crashed {
        Interfere(me);
        ReachableCall(old(trace), before, me, e, st);
      }
    }

    /** DeleteIoContext: gives the reference back, then frees the context as the class its tag names. */
    method DeleteIoContext(me: ThreadId)
      requires Valid() && me in st.threads && st.threads[me].call.Releasing?
      modifies this
      ensures Valid() && old(trace) <= trace && me in st.threads
      ensures var th := old(st).threads[me];
        && (th.call.after == Back ==> st.threads[me] == Thread(th.job, NoCall))
        && (th.call.after.ThenDisconnect? ==> st.threads[me] == Thread(th.job, Exchanging(th.call.after.session)))
        && (th.call.after == EndJob ==> st.threads[me] == Thread(Idle, NoCall))
      ensures var c := old(st).threads[me].call.ctx;
        && c in old(st).heap && c !in st.heap && c in st.freed && st.freed[c] == old(st).heap[c].cls
        && (old(st).threads[me].call.after != EndJob ==> c !in st.posts)
      ensures !old(st).threads[me].job.Ending? ==> JobKept(old(st), st, me)
    {
      ghost var before := st;
      var crashed := Call(me, Release);
      ghost var between := st;
      ReachableThread(trace, st, me);
      crashed := Take(OnCall(me, Free));
      if !before.threads[me].job.Ending? {
        CallKeepsJob(between, me, Free);
        JobKeptThen(before, between, st, me);
      }
    }

    /** DisconnectRequest: if it finds the session connected it builds one disconnect context and submits
        it; `answer` is what becomes of it. It crashes only if this session's count or the pool of
        disconnect contexts is exhausted, or if the caller works through a pointer to a session nothing
        refers to any more. */
    method DisconnectRequest(me: ThreadId, answer: Answer, wild: bool)
      returns (crashed: bool, ghost built: Option<CtxId>)
      requires Valid() && me in st.threads && st.threads[me].call.Exchanging? && !st.threads[me].job.Ending?
      modifies this
      ensures Valid() && old(trace) <= trace
      ensures !crashed ==> JobKept(old(st), st, me) && st.threads[me].call == NoCall
      ensures !crashed ==>
        var s := old(st).threads[me].call.session;
        && old(trace) + [OnCall(me, Exchange)] <= trace
        && s in old(st).sessions && (built.Some? <==> old(st).sessions[s].connected)
        && (built.Some? ==> NewlySettled(old(st), st, built.value, s, DisconnectContext, 0, answer))
      ensures crashed ==> me in st.threads && st.threads[me].job == old(st).threads[me].job
      ensures crashed ==>
        || Lost(st, st.threads[me])
        || ConstructHazard(st, Constructing(old(st).threads[me].call.session, DisconnectContext, 0))
    {
      built := None;
      ghost var before := st;
      crashed := Call(me, Exchange);
      if crashed {
        return;
      }
      if st.threads[me].call == NoCall {
        return;
      }
      ghost var exchanged, sofar := st, trace;
      ghost var c;
      crashed, c := BuildAndSubmit(me, answer, wild);
      if !crashed {
        built := Some(c);
        JobKeptThen(before, exchanged, st, me);
        TraceLater(old(trace), before, sofar, exchanged, c);
      }
    }

    /** Builds the context a session call is about to build and submits it; a refused one is deleted,
        and if it was a send the call goes on to disconnect. */
    method BuildAndSubmit(me: ThreadId, answer: Answer, wild: bool) returns (crashed: bool, ghost c: CtxId)
      requires Valid() && me in st.threads && !st.threads[me].job.Ending? && st.threads[me].call.Constructing?
      requires answer == Leaked ==> st.threads[me].call.cls == DisconnectContext
      modifies this
      ensures Valid() && old(trace) <= trace
      ensures !crashed ==>
        var Constructing(s, cls, len) := old(st).threads[me].call;
        && JobKept(old(st), st, me) && NewlySettled(old(st), st, c, s, cls, len, answer)
        && st.threads[me].call == if answer == Refused && cls == SendContext then Exchanging(s) else NoCall
      ensures crashed <==> Lost(old(st), old(st).threads[me]) || ConstructHazard(old(st), old(st).threads[me].call)
      ensures crashed ==> st == old(st)
    {
      ghost var n := FreshExists(st.heap.Keys + st.freed.Keys);
      assert n !in st.heap && n !in st.freed;
      var d: CtxId :| d !in st.heap && d !in st.freed;
      c := d;
      ghost var before := st;
      crashed := Call(me, Construct(d, wild));
      if !crashed {
        ghost var built := st;
        SubmitOrDelete(me, answer);
        JobKeptThen(before, built, st, me);
      }
    }

    /** Submits the context a session call has built; a refused one is deleted. */
    method SubmitOrDelete(me: ThreadId, answer: Answer)
      requires Valid() && me in st.threads && !st.threads[me].job.Ending? && st.threads[me].call.Submitting?
      requires st.threads[me].call.ctx in st.heap
      requires answer == Leaked ==> st.heap[st.threads[me].call.ctx].cls == DisconnectContext
      modifies this
      ensures Valid() && old(trace) <= trace && JobKept(old(st), st, me)
      ensures var c := old(st).threads[me].call.ctx; var x := old(st).heap[c];
        && Settled(st, c, x.session, x.cls, x.offered, answer)
        && st.threads[me].call == if answer == Refused && x.cls == SendContext then Exchanging(x.session) else NoCall
    {
      ghost var before, c := st, st.threads[me].call.ctx;
      var crashed := Call(me, Submit(answer));
      if answer == Refused {
        ghost var refused := st;
        DeleteIoContext(me);
        JobKeptThen(before, refused, st, me);
        ghost var deleted, sofar := st, trace;
        Interfere(me);
        JobKeptThen(before, deleted, st, me);
        TraceLater(sofar, deleted, trace, st, c);
      } else {
        ReachableSettled(old(trace), before, me, answer, trace, st);
      }
    }

    /** FlushSend from the construction of its context on, under the send lock. A refused send is
        deleted and its session disconnected before the lock is left. */
    method FlushSend(me: ThreadId, answer: Answer, wild: bool, disconnect: Answer, wildAgain: bool)
      returns (crashed: bool, ghost c: CtxId)
      requires Valid() && me in st.threads && st.threads[me].call.Constructing? && st.threads[me].call.cls == SendContext
      requires (st.threads[me].job.Holding? || st.threads[me].job.Dispatching?) && st.threads[me].job.inside
      requires answer != Leaked
      modifies this
      ensures Valid() && old(trace) <= trace
      ensures !crashed ==>
        && me in st.threads && st.threads[me] == Thread(old(st).threads[me].job.(inside := false), NoCall)
        && NewlySettled(old(st), st, c, old(st).threads[me].call.session, SendContext, old(st).threads[me].call.offered, answer)
        && (answer == Refused ==> OnCall(me, Exchange) in trace[|old(trace)|..])
    {
      ghost var before := st;
      crashed, c := BuildAndSubmit(me, answer, wild);
      if crashed {
        return;
      }
      ghost var settled, sofar := st, trace;
      if answer == Refused {
        ghost var built;
        crashed, built := DisconnectRequest(me, disconnect, wildAgain);
        if crashed {
          return;
        }
        assert sofar + [OnCall(me, Exchange)] <= trace;
        assert trace[|sofar|] == OnCall(me, Exchange);
      }
      Interfere(me);
      crashed := Take(OnJob(me, Leave));
      if crashed {
        return;
      }
      ReachableLater(sofar, settled, trace, st, c, before.threads[me].call.session, SendContext,
                     before.threads[me].call.offered, answer);
    }

    /** The failure branch of DoIocpJob: disconnect the session, then delete the context. */
    method HandleFailure(me: ThreadId, answer: Answer, wild: bool) returns (crashed: bool, ghost built: Option<CtxId>)
      requires Valid() && me in st.threads && st.threads[me].job.Failing? && st.threads[me].call.Exchanging?
      modifies this
      ensures Valid() && old(trace) <= trace
      ensures !crashed ==>
        var c := old(st).threads[me].job.ctx;
        && me in st.threads && st.threads[me] == Thread(Idle, NoCall)
        && c in old(st).heap && c !in st.heap && c in st.freed && st.freed[c] == old(st).heap[c].cls
      ensures !crashed ==>
        var s := old(st).threads[me].call.session;
        && s in old(st).sessions && (built.Some? <==> old(st).sessions[s].connected)
        && (built.Some? ==> NewlySettled(old(st), st, built.value, s, DisconnectContext, 0, answer))
      ensures crashed ==> ConstructHazard(st, Constructing(old(st).threads[me].call.session, DisconnectContext, 0))
    {
      ghost var s := st.threads[me].call.session;
      crashed, built := DisconnectRequest(me, answer, wild);
      if !crashed {
        ghost var requested, sofar := st, trace;
        Interfere(me);
        crashed := Take(OnJob(me, FailReturn));
        Interfere(me);
        DeleteIoContext(me);
        if built.Some? {
          ReachableLater(sofar, requested, trace, st, built.value, s, DisconnectContext, 0, answer);
        }
      }
    }

    /** DoIocpJob up to the decision what to do with a completion: dequeue, read its session, test it. */
    method TakeCompletion(me: ThreadId, c: CtxId, ret: bool, transferred: nat)
      requires Valid() && me in st.threads && Enabled(st, OnJob(me, Dequeue(c, ret, transferred)))
      modifies this
      ensures Valid() && old(trace) <= trace && c in old(st).heap && me in st.threads
      ensures var x := old(st).heap[c];
        && c in st.heap && st.heap[c] == x && transferred <= x.offered
        && st.threads[me] ==
           if (!ret || transferred == 0) && (x.cls == SendContext || x.cls == RecvContext)
           then Thread(Failing(c, x.session), Exchanging(x.session))
           else Thread(Dispatching(c, x.session, false), NoCall)
    {
      var crashed := Take(OnJob(me, Dequeue(c, ret, transferred)));
      TagsAreTheirs(trace, st, c);
      Interfere(me);
      crashed := Take(OnJob(me, Classify));
      Interfere(me);
    }

    /** DoIocpJob for one result of GetQueuedCompletionStatus. A null context is survived only with
        a timeout. A send or receive is dispatched if and only if the call succeeded and moved bytes,
        and otherwise ends with its context freed; so a receive, which was offered no buffer, is never
        dispatched. Any other completion is. The dispatch finds the context live, unreleased and of a
        live session. */
    method DoIocpJob(
        me: ThreadId, ret: bool, transferred: nat, context: Option<CtxId>, error: LastError,
        answer: Answer, wild: bool)
      returns (outcome: Outcome, ghost built: Option<CtxId>)
      requires Valid() && me in st.threads
      requires context.Some? ==> Enabled(st, OnJob(me, Dequeue(context.value, ret, transferred)))
      requires context.None? ==> Enabled(st, OnJob(me, DequeueNull(ret, transferred, error)))
      modifies this
      ensures Valid() && old(trace) <= trace
      ensures context.None? ==>
        outcome == if (!ret || transferred == 0) && error == WaitTimeout then TimedOut else Crashed
      ensures context.None? && outcome == Crashed ==> old(st).closed
      ensures context.Some? ==> context.value in old(st).heap
      ensures context.Some? && outcome != Crashed ==>
        var c, x := context.value, old(st).heap[context.value];
        if (!ret || transferred == 0) && (x.cls == SendContext || x.cls == RecvContext) then
          && outcome == Disconnected && me in st.threads && st.threads[me] == Thread(Idle, NoCall)
          && c !in st.heap && c in st.freed && st.freed[c] == x.cls
        else
          && outcome == Dispatched && me in st.threads && st.threads[me] == Thread(Dispatching(c, x.session, false), NoCall)
          && c in st.heap && st.heap[c] == x && !x.released && !Dead(st, x.session) && x.cls != RecvContext
      ensures outcome == Disconnected && built.Some? ==>
        Settled(st, built.value, old(st).heap[context.value].session, DisconnectContext, 0, answer)
      ensures context.Some? && outcome == Crashed ==>
        ConstructHazard(st, Constructing(old(st).heap[context.value].session, DisconnectContext, 0))
    {
      built := None;
      if context.None? {
        var crashed := Take(OnJob(me, DequeueNull(ret, transferred, error)));
        outcome := if crashed then Crashed else TimedOut;
        return;
      }
      TakeCompletion(me, context.value, ret, transferred);
      if st.threads[me].job.Dispatching? {
        DispatchedLive(trace, st, me);
        outcome := Dispatched;
        return;
      }
      var crashed;
      crashed, built := HandleFailure(me, answer, wild);
      outcome := if crashed then Crashed else Disconnected;
    }
  }
}
