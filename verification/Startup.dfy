/** Start-up of the I/O workers: threads are created suspended, their slots filled, and only then
    are they resumed, one by one, while those already resumed run. */
module Startup {
  import opened IoContexts

  const MAX_IOTHREAD: nat := 8

  type Handle = nat

  /** A WorkerThread object. */
  datatype Worker = Worker(id: nat, handle: Handle)

  /** The main thread in StartIoThreads. */
  datatype Main = Creating(i: nat) | Resuming(i: nat) | Started | Failed(at: nat)

  /** An operating-system thread; a running one remembers the WorkerThread it found in its slot. */
  datatype Phase = Suspended | Runnable | Running(found: Worker)
  datatype OsThread = OsThread(param: nat, phase: Phase)

  datatype State = State(
    count: nat,
    slots: seq<Option<Worker>>,
    threads: map<Handle, OsThread>,
    main: Main)

  datatype Step =
    | Create(h: Handle)
    | CreateFails
    | EndCreating
    | Resume
    | EndResuming
    | WorkerEntry(h: Handle)

  function Min(a: nat, b: nat): nat {
    if a < b then a else b
  }

  /** After the constructor and the processor count of Initialize. */
  function Initial(processors: nat): State {
    State(Min(processors, MAX_IOTHREAD), seq(MAX_IOTHREAD, _ => None), map[], Creating(0))
  }

  predicate Enabled(st: State, e: Step) {
    match e
    case Create(h) => st.main.Creating? && st.main.i < st.count && h !in st.threads
    case CreateFails => st.main.Creating? && st.main.i < st.count
    case EndCreating => st.main.Creating? && st.main.i >= st.count
    case Resume => st.main.Resuming? && st.main.i < st.count
    case EndResuming => st.main.Resuming? && st.main.i >= st.count
    case WorkerEntry(h) => h in st.threads && st.threads[h].phase == Runnable
  }

  predicate BadSlot(st: State, i: nat) {
    i >= |st.slots| || st.slots[i].None?
  }

  /** An index past the array, a null slot dereferenced, or a handle that is no thread. */
  predicate Faults(st: State, e: Step)
    requires Enabled(st, e)
  {
    match e
    case Create(_) => st.main.i >= |st.slots|
    case Resume => BadSlot(st, st.main.i) || st.slots[st.main.i].value.handle !in st.threads
    case WorkerEntry(h) => BadSlot(st, st.threads[h].param)
    case _ => false
  }

  function Apply(st: State, e: Step): State
    requires Enabled(st, e) && !Faults(st, e)
  {
    match e
    case Create(h) =>
      var i := st.main.i;
      st.(threads := st.threads[h := OsThread(i, Suspended)],
          slots := st.slots[i := Some(Worker(i, h))],
          main := Creating(i + 1))
    case CreateFails => st.(main := Failed(st.main.i))
    case EndCreating => st.(main := Resuming(0))
    case Resume =>
      var h := st.slots[st.main.i].value.handle;
      var th := st.threads[h];
      st.(threads := st.threads[h := th.(phase := if th.phase == Suspended then Runnable else th.phase)],
          main := Resuming(st.main.i + 1))
    case EndResuming => st.(main := Started)
    case WorkerEntry(h) =>
      var th := st.threads[h];
      st.(threads := st.threads[h := th.(phase := Running(st.slots[th.param].value))])
  }

  ghost predicate Run(st: State, es: seq<Step>, st': State)
    decreases |es|
  {
    if es == [] then st' == st
    else Enabled(st, es[0]) && !Faults(st, es[0]) && Run(Apply(st, es[0]), es[1..], st')
  }

  // ----- the invariant -----

  /** How many slots the first loop has filled. */
  function Filled(st: State): nat {
    match st.main
    case Creating(i) => i
    case Failed(k) => k
    case Resuming(_) => st.count
    case Started => st.count
  }

  /** How many threads the second loop has resumed. */
  function Resumed(st: State): nat {
    match st.main
    case Resuming(i) => i
    case Started => st.count
    case _ => 0
  }

  ghost predicate SlotOk(st: State, j: nat)
    requires j < |st.slots|
  {
    if j < Filled(st) then
      && st.slots[j].Some? && st.slots[j].value.id == j
      && st.slots[j].value.handle in st.threads && st.threads[st.slots[j].value.handle].param == j
    else st.slots[j].None?
  }

  ghost predicate ThreadOk(st: State, h: Handle)
    requires h in st.threads
  {
    var th := st.threads[h];
    && th.param < Filled(st) && th.param < |st.slots| && st.slots[th.param] == Some(Worker(th.param, h))
    && (th.phase == Suspended <==> Resumed(st) <= th.param)
    && (th.phase.Running? ==> th.phase.found == Worker(th.param, h))
  }

  ghost predicate Inv(st: State) {
    && st.count <= MAX_IOTHREAD == |st.slots|
    && Resumed(st) <= Filled(st) <= st.count
    && (forall j :: 0 <= j < |st.slots| ==> SlotOk(st, j))
    && (forall h :: h in st.threads ==> ThreadOk(st, h))
  }

  lemma NoFault(st: State, e: Step)
    requires Inv(st) && Enabled(st, e)
    ensures !Faults(st, e)
  {
    if e.Resume? {
      assert SlotOk(st, st.main.i);
    } else if e.WorkerEntry? {
      assert ThreadOk(st, e.h);
    }
  }

  lemma CreateKeepsInv(st: State, h: Handle)
    requires Inv(st) && Enabled(st, Create(h)) && !Faults(st, Create(h))
    ensures Inv(Apply(st, Create(h)))
  {
    var st' := Apply(st, Create(h));
    forall j | 0 <= j < |st'.slots|
      ensures SlotOk(st', j)
    {
      assert SlotOk(st, j);
    }
    forall k | k in st'.threads
      ensures ThreadOk(st', k)
    {
      assert k != h ==> ThreadOk(st, k);
    }
  }

  lemma ThreadMoveKeepsInv(st: State, e: Step)
    requires Inv(st) && Enabled(st, e) && !Faults(st, e) && (e.Resume? || e.WorkerEntry?)
    ensures Inv(Apply(st, e))
  {
    var st' := Apply(st, e);
    forall j | 0 <= j < |st'.slots|
      ensures SlotOk(st', j)
    {
      assert SlotOk(st, j);
    }
    forall k | k in st'.threads
      ensures ThreadOk(st', k)
    {
      assert ThreadOk(st, k);
      assert e.Resume? ==> SlotOk(st, st.main.i);
    }
  }

  lemma MainMoveKeepsInv(st: State, e: Step)
    requires Inv(st) && Enabled(st, e) && !Faults(st, e) && (e.CreateFails? || e.EndCreating? || e.EndResuming?)
    ensures Inv(Apply(st, e))
  {
    var st' := Apply(st, e);
    forall j | 0 <= j < |st'.slots|
      ensures SlotOk(st', j)
    {
      assert SlotOk(st, j);
    }
    forall k | k in st'.threads
      ensures ThreadOk(st', k)
    {
      assert ThreadOk(st, k);
    }
  }

  lemma StepKeepsInv(st: State, e: Step)
    requires Inv(st) && Enabled(st, e)
    ensures !Faults(st, e) && Inv(Apply(st, e))
  {
    NoFault(st, e);
    if e.Create? {
      CreateKeepsInv(st, e.h);
    } else if e.Resume? || e.WorkerEntry? {
      ThreadMoveKeepsInv(st, e);
    } else {
      MainMoveKeepsInv(st, e);
    }
  }

  lemma {:induction false} RunKeepsInv(st: State, es: seq<Step>, st': State)
    requires Inv(st) && Run(st, es, st')
    ensures Inv(st')
    decreases |es|
  {
    if es != [] {
      StepKeepsInv(st, es[0]);
      RunKeepsInv(Apply(st, es[0]), es[1..], st');
    }
  }

  // ----- every interleaving -----

  /** For every processor count and every interleaving of the two loops with running workers, no step
      leaves the array or dereferences a null slot. */
  lemma {:induction false} StartupNeverFaults(processors: nat, es: seq<Step>, st: State, e: Step)
    requires Run(Initial(processors), es, st) && Enabled(st, e)
    ensures !Faults(st, e)
  {
    RunKeepsInv(Initial(processors), es, st);
    NoFault(st, e);
  }

  /** A running worker found the WorkerThread built for it: its own index, its own handle, and the
      object that is still in its slot. */
  lemma {:induction false} WorkerFindsItself(processors: nat, es: seq<Step>, st: State, h: Handle)
    requires Run(Initial(processors), es, st) && h in st.threads && st.threads[h].phase.Running?
    ensures var th := st.threads[h];
      && th.phase.found == Worker(th.param, h) && th.param < MAX_IOTHREAD
      && th.param < |st.slots| && st.slots[th.param] == Some(th.phase.found)
  {
    RunKeepsInv(Initial(processors), es, st);
    assert ThreadOk(st, h);
  }

  lemma {:induction false} CountFits(processors: nat, es: seq<Step>, st: State)
    requires Run(Initial(processors), es, st)
    ensures st.count <= |st.slots| == MAX_IOTHREAD
  {
    RunKeepsInv(Initial(processors), es, st);
  }

  lemma SlotsFilled(st: State)
    requires Inv(st)
    ensures forall j :: 0 <= j < |st.slots| ==> (st.slots[j].Some? <==> j < Filled(st))
    ensures forall j :: 0 <= j < Filled(st) ==> st.slots[j].value.handle in st.threads
  {
    forall j | 0 <= j < |st.slots|
      ensures st.slots[j].Some? <==> j < Filled(st)
      ensures j < Filled(st) ==> st.slots[j].value.handle in st.threads
    {
      assert SlotOk(st, j);
    }
  }

  /** If creation fails at k, exactly slots 0..k-1 are filled, the others are still null, and no
      worker has taken a step or ever will. */
  lemma {:induction false} FailedStartupRunsNothing(processors: nat, es: seq<Step>, st: State)
    requires Run(Initial(processors), es, st) && st.main.Failed?
    ensures forall j :: 0 <= j < |st.slots| ==> (st.slots[j].Some? <==> j < st.main.at)
    ensures forall h :: h in st.threads ==> st.threads[h].phase == Suspended
    ensures forall e :: !Enabled(st, e)
  {
    RunKeepsInv(Initial(processors), es, st);
    SlotsFilled(st);
    assert forall h :: h in st.threads ==> ThreadOk(st, h);
  }

  /** After start-up every created thread has been resumed and every counted slot belongs to one. */
  lemma {:induction false} StartedCompletely(processors: nat, es: seq<Step>, st: State)
    requires Run(Initial(processors), es, st) && st.main == Started
    ensures forall h :: h in st.threads ==> st.threads[h].phase != Suspended
    ensures forall j :: 0 <= j < |st.slots| ==> (st.slots[j].Some? <==> j < st.count)
    ensures st.threads.Keys == set j | 0 <= j < |st.slots| && st.slots[j].Some? :: st.slots[j].value.handle
  {
    RunKeepsInv(Initial(processors), es, st);
    SlotsFilled(st);
    forall h | h in st.threads
      ensures st.threads[h].phase != Suspended
      ensures h in set j | 0 <= j < |st.slots| && st.slots[j].Some? :: st.slots[j].value.handle
    {
      assert ThreadOk(st, h);
      assert st.slots[st.threads[h].param].value.handle == h;
    }
  }

  // ----- every worker runs -----

  lemma {:induction false} RunExtend(st: State, es: seq<Step>, st': State, e: Step)
    requires Run(st, es, st') && Enabled(st', e) && !Faults(st', e)
    ensures Run(st, es + [e], Apply(st', e))
    decreases |es|
  {
    if es == [] {
      assert es + [e] == [e];
    } else {
      RunExtend(Apply(st, es[0]), es[1..], st', e);
      assert (es + [e])[1..] == es[1..] + [e];
    }
  }

  /** Whatever the main thread does, a thread that was resumed can enter IoWorkerThread next and then runs
      the WorkerThread built for it. */
  lemma {:induction false} ResumedCanRun(processors: nat, es: seq<Step>, st: State, h: Handle)
    requires Run(Initial(processors), es, st) && h in st.threads && st.threads[h].phase == Runnable
    ensures Enabled(st, WorkerEntry(h)) && !Faults(st, WorkerEntry(h))
    ensures Apply(st, WorkerEntry(h)) ==
            st.(threads := st.threads[h := OsThread(st.threads[h].param, Running(Worker(st.threads[h].param, h)))])
  {
    RunKeepsInv(Initial(processors), es, st);
    NoFault(st, WorkerEntry(h));
    assert ThreadOk(st, h);
  }

  /** The threads that do not run yet. */
  function Waiting(st: State): set<Handle> {
    set h | h in st.threads && !st.threads[h].phase.Running?
  }

  ghost predicate RunsItself(st: State, h: Handle)
    requires h in st.threads
  {
    st.threads[h].phase == Running(Worker(st.threads[h].param, h))
  }

  lemma WaitingFewer(st: State, h: Handle)
    requires Inv(st) && h in Waiting(st) && Enabled(st, WorkerEntry(h)) && !Faults(st, WorkerEntry(h))
    ensures Waiting(Apply(st, WorkerEntry(h))) == Waiting(st) - {h}
  {
  }

  /** After start-up there is a way on in which every worker runs, each on its own object. */
  lemma {:induction false} AllWorkersCanRun(processors: nat, es: seq<Step>, st: State)
    returns (es': seq<Step>, st': State)
    requires Run(Initial(processors), es, st) && st.main == Started
    ensures Run(Initial(processors), es', st') && es <= es'
    ensures st'.main == Started && st'.slots == st.slots && st'.threads.Keys == st.threads.Keys
    ensures forall h :: h in st'.threads ==> RunsItself(st', h)
    decreases |Waiting(st)|
  {
    RunKeepsInv(Initial(processors), es, st);
    if h :| h in Waiting(st) {
      StartedCompletely(processors, es, st);
      ResumedCanRun(processors, es, st, h);
      WaitingFewer(st, h);
      RunExtend(Initial(processors), es, st, WorkerEntry(h));
      es', st' := AllWorkersCanRun(processors, es + [WorkerEntry(h)], Apply(st, WorkerEntry(h)));
    } else {
      es', st' := es, st;
      forall h | h in st.threads
        ensures RunsItself(st, h)
      {
        assert h !in Waiting(st) && ThreadOk(st, h);
      }
    }
  }

  lemma {:induction false} CanCreate(processors: nat, k: nat) returns (es: seq<Step>, st: State)
    requires k <= Min(processors, MAX_IOTHREAD)
    ensures Run(Initial(processors), es, st) && st.main == Creating(k) && st.count == Min(processors, MAX_IOTHREAD)
    ensures forall h :: h in st.threads ==> h < k
  {
    if k == 0 {
      es, st := [], Initial(processors);
    } else {
      es, st := CanCreate(processors, k - 1);
      StartupNeverFaults(processors, es, st, Create(k - 1));
      RunExtend(Initial(processors), es, st, Create(k - 1));
      es, st := es + [Create(k - 1)], Apply(st, Create(k - 1));
    }
  }

  lemma {:induction false} CanResume(processors: nat, k: nat) returns (es: seq<Step>, st: State)
    requires k <= Min(processors, MAX_IOTHREAD)
    ensures Run(Initial(processors), es, st) && st.main == Resuming(k) && st.count == Min(processors, MAX_IOTHREAD)
  {
    var e: Step;
    if k == 0 {
      es, st := CanCreate(processors, Min(processors, MAX_IOTHREAD));
      e := EndCreating;
    } else {
      es, st := CanResume(processors, k - 1);
      e := Resume;
    }
    StartupNeverFaults(processors, es, st, e);
    RunExtend(Initial(processors), es, st, e);
    es, st := es + [e], Apply(st, e);
  }

  /** For every processor count start-up can succeed with every counted slot filled and every worker
      running on its own object. */
  lemma {:induction false} StartupCanSucceed(processors: nat) returns (es: seq<Step>, st: State)
    ensures Run(Initial(processors), es, st) && st.main == Started && st.count == Min(processors, MAX_IOTHREAD)
    ensures forall j :: 0 <= j < |st.slots| ==> (st.slots[j].Some? <==> j < Min(processors, MAX_IOTHREAD))
    ensures forall h :: h in st.threads ==> RunsItself(st, h)
  {
    es, st := CanResume(processors, Min(processors, MAX_IOTHREAD));
    RunExtend(Initial(processors), es, st, EndResuming);
    es, st := AllWorkersCanRun(processors, es + [EndResuming], Apply(st, EndResuming));
    StartedCompletely(processors, es, st);
    CountIs(processors, es, st);
  }

  lemma StepKeepsCount(st: State, e: Step)
    requires Enabled(st, e) && !Faults(st, e)
    ensures Apply(st, e).count == st.count
  {
  }

  lemma {:induction false} RunKeepsCount(st: State, es: seq<Step>, st': State)
    requires Run(st, es, st')
    ensures st'.count == st.count
    decreases |es|
  {
    if es != [] {
      StepKeepsCount(st, es[0]);
      RunKeepsCount(Apply(st, es[0]), es[1..], st');
    }
  }

  lemma CountIs(processors: nat, es: seq<Step>, st: State)
    requires Run(Initial(processors), es, st)
    ensures st.count == Min(processors, MAX_IOTHREAD)
  {
    RunKeepsCount(Initial(processors), es, st);
  }

  // ----- the loops of StartIoThreads -----

  /** The handles the operating system gives out are all different. */
  ghost predicate Distinct(created: seq<Option<Handle>>) {
    forall i, j :: 0 <= i < j < |created| && created[i].Some? ==> created[i] != created[j]
  }

  /** None of the threads still to be created exists. */
  ghost predicate NotYet(created: seq<Option<Handle>>, i: nat, threads: map<Handle, OsThread>) {
    forall j :: i <= j < |created| && created[j].Some? ==> created[j].value !in threads
  }

  /** `workers` is mWorkerThread; `resumed` logs the calls of ResumeThread. `machine` is the state of
      all threads and `trace` the run that led to it. */
  class IocpManager {
    var ioThreadCount: nat
    const workers: array<Option<Worker>>
    var resumed: seq<Handle>
    ghost var processors: nat
    ghost var machine: State
    ghost var trace: seq<Step>

    /** The object's fields are those of a state some interleaving reaches. */
    ghost predicate Valid()
      reads this, workers
    {
      && Run(Initial(processors), trace, machine)
      && workers[..] == machine.slots && ioThreadCount == machine.count
    }

    constructor ()
      ensures ioThreadCount == 2 && workers.Length == MAX_IOTHREAD && fresh(workers) && resumed == []
      ensures forall i :: 0 <= i < workers.Length ==> workers[i] == None
    {
      ioThreadCount := 2;
      workers := new Option<Worker>[MAX_IOTHREAD](_ => None);
      resumed := [];
    }

    /** The part of Initialize that fixes the number of workers. */
    method SetThreadCount(processorCount: nat)
      requires workers.Length == MAX_IOTHREAD && forall i :: 0 <= i < workers.Length ==> workers[i] == None
      modifies this`ioThreadCount, this`processors, this`machine, this`trace
      ensures Valid() && machine == Initial(processorCount)
      ensures ioThreadCount <= 8 && ioThreadCount <= processorCount
      ensures ioThreadCount == 8 || ioThreadCount == processorCount
    {
      ioThreadCount := if processorCount < MAX_IOTHREAD then processorCount else MAX_IOTHREAD;
      processors, machine, trace := processorCount, Initial(processorCount), [];
    }

    /** A step of the machine; none can fault. */
    ghost method Advance(e: Step)
      requires Run(Initial(processors), trace, machine) && Enabled(machine, e)
      modifies this`machine, this`trace
      ensures Run(Initial(processors), trace, machine)
      ensures !Faults(old(machine), e) && machine == Apply(old(machine), e)
    {
      StartupNeverFaults(processors, trace, machine, e);
      RunExtend(Initial(processors), trace, machine, e);
      machine, trace := Apply(machine, e), trace + [e];
    }

    /** Threads that were resumed enter IoWorkerThread, in any order. */
    ghost method Interfere(entering: seq<Handle>)
      requires Run(Initial(processors), trace, machine)
      modifies this`machine, this`trace
      ensures Run(Initial(processors), trace, machine)
      ensures machine == old(machine).(threads := machine.threads) && machine.threads.Keys == old(machine).threads.Keys
      ensures forall i :: 0 <= i < |entering| && entering[i] in machine.threads ==>
                machine.threads[entering[i]].phase != Runnable
    {
      for i := 0 to |entering|
        invariant Run(Initial(processors), trace, machine)
        invariant forall j :: 0 <= j < i && entering[j] in machine.threads ==>
                    machine.threads[entering[j]].phase != Runnable
        invariant machine == old(machine).(threads := machine.threads) && machine.threads.Keys == old(machine).threads.Keys
      {
        if Enabled(machine, WorkerEntry(entering[i])) {
          Advance(WorkerEntry(entering[i]));
        }
      }
    }

    /** The first loop: creates suspended threads and fills their slots until one creation fails. */
    method CreateWorkers(created: seq<Option<Handle>>, ghost entering: nat -> seq<Handle>) returns (ok: bool)
      requires Valid() && machine.main == Creating(0) && |created| == ioThreadCount
      requires Distinct(created) && NotYet(created, 0, machine.threads)
      modifies workers, this`machine, this`trace
      ensures ioThreadCount <= workers.Length
      ensures Valid() && (ok <==> CreatedBeforeFailure(created) == |created|)
      ensures machine.main == if ok then Creating(|created|) else Failed(CreatedBeforeFailure(created))
      ensures forall i :: 0 <= i < CreatedBeforeFailure(created) ==> workers[i] == Some(Worker(i, created[i].value))
      ensures forall i :: CreatedBeforeFailure(created) <= i < workers.Length ==> workers[i] == old(workers[i])
    {
      CountFits(processors, trace, machine);
      for i := 0 to ioThreadCount
        invariant Valid() && machine.main == Creating(i) && NotYet(created, i, machine.threads)
        invariant i <= CreatedBeforeFailure(created)
        invariant forall j :: 0 <= j < i ==> workers[j] == Some(Worker(j, created[j].value))
        invariant forall j :: i <= j < workers.Length ==> workers[j] == old(workers[j])
      {
        if created[i].None? {
          Advance(CreateFails);
          return false;
        }
        Advance(Create(created[i].value));
        workers[i] := Some(Worker(i, created[i].value));
        Interfere(entering(i));
      }
      ok := true;
    }

    /** The second loop: resumes the threads in the order of their slots, while those already resumed
        run. */
    method ResumeWorkers(created: seq<Option<Handle>>, ghost entering: nat -> seq<Handle>)
      requires Valid() && machine.main == Resuming(0) && |created| == ioThreadCount <= workers.Length
      requires forall j :: 0 <= j < |created| ==> created[j].Some? && workers[j] == Some(Worker(j, created[j].value))
      modifies this`resumed, this`machine, this`trace
      ensures Valid() && machine.main == Resuming(|created|)
      ensures resumed == old(resumed) + Handles(created)
    {
      for i := 0 to ioThreadCount
        invariant Valid() && machine.main == Resuming(i)
        invariant |resumed| == |old(resumed)| + i && old(resumed) <= resumed
        invariant forall j :: 0 <= j < i ==> resumed[|old(resumed)| + j] == created[j].value
      {
        Advance(Resume);
        resumed := resumed + [workers[i].value.handle];
        Interfere(entering(i));
      }
    }

    /** `created` are the results of _beginthreadex, None for a failure; `entering` says which resumed
        threads start to run after each iteration. No thread is resumed before every slot is filled,
        each then exactly once and in order. */
    method StartIoThreads(created: seq<Option<Handle>>, ghost entering: nat -> seq<Handle>) returns (ok: bool)
      requires Valid() && machine == Initial(processors) && |created| == ioThreadCount && Distinct(created)
      modifies workers, this`resumed, this`machine, this`trace
      ensures ioThreadCount <= workers.Length
      ensures Valid() && machine.main == if ok then Started else Failed(CreatedBeforeFailure(created))
      ensures ok <==> CreatedBeforeFailure(created) == |created|
      ensures forall i :: 0 <= i < CreatedBeforeFailure(created) ==> workers[i] == Some(Worker(i, created[i].value))
      ensures forall i :: CreatedBeforeFailure(created) <= i < workers.Length ==> workers[i] == old(workers[i])
      ensures resumed == old(resumed) + if ok then Handles(created) else []
    {
      ok := CreateWorkers(created, entering);
      if ok {
        Advance(EndCreating);
        ResumeWorkers(created, entering);
        Advance(EndResuming);
      }
    }
  }

  function Handles(created: seq<Option<Handle>>): (r: seq<Handle>)
    requires forall i :: 0 <= i < |created| ==> created[i].Some?
    ensures |r| == |created| && forall i :: 0 <= i < |r| ==> r[i] == created[i].value
  {
    seq(|created|, i requires 0 <= i < |created| => created[i].value)
  }

  /** How many threads are created before the first failure. */
  function CreatedBeforeFailure(created: seq<Option<Handle>>): (n: nat)
    ensures n <= |created| && (n < |created| ==> created[n].None?)
    ensures forall i :: 0 <= i < n ==> created[i].Some?
  {
    if created == [] || created[0].None? then 0 else 1 + CreatedBeforeFailure(created[1..])
  }
}
