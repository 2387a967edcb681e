/** The write side of FastSpinlock: writers add a flag to a 32-bit word, win if they are the only one,
    and take the flag back otherwise. Mutual exclusion holds exactly up to 2048 threads, because the
    eleven write bits then wrap around. */
module SpinLock {
  import opened Counting

  type ThreadId = nat

  const WRITE_FLAG: int := 0x0010_0000
  const WORD: int := 0x1_0000_0000

  /** `flag & LF_WRITE_MASK`, shifted down: bits 20 to 30. */
  function WriteBits(flag: int): int {
    (flag / WRITE_FLAG) % 0x800
  }

  /** `flag & LF_READ_MASK`: bits 0 to 19. */
  function ReadBits(flag: int): int {
    flag % WRITE_FLAG
  }

  /** Where a thread is in EnterWriteLock and LeaveWriteLock. */
  datatype Pc = Outside | Polling | Adding | Backing | Winning | Holding

  /** `flag` is mLockFlag, as an unsigned 32-bit word. */
  datatype State = State(flag: int, threads: map<ThreadId, Pc>)

  datatype Action = Enter | Poll | Add | BackOff | AwaitReaders | Leave
  datatype Step = Step(t: ThreadId, action: Action)

  predicate Enabled(st: State, e: Step) {
    && e.t in st.threads
    && match e.action
       case Enter => st.threads[e.t] == Outside
       case Poll => st.threads[e.t] == Polling
       case Add => st.threads[e.t] == Adding
       case BackOff => st.threads[e.t] == Backing
       case AwaitReaders => st.threads[e.t] == Winning
       case Leave => st.threads[e.t] == Holding
  }

  function Move(st: State, t: ThreadId, flag: int, pc: Pc): State {
    State(flag, st.threads[t := pc])
  }

  function Apply(st: State, e: Step): State
    requires Enabled(st, e)
  {
    match e.action
    case Enter => Move(st, e.t, st.flag, Polling)
    case Poll => Move(st, e.t, st.flag, if WriteBits(st.flag) == 0 then Adding else Polling)
    case Add =>
      var flag := (st.flag + WRITE_FLAG) % WORD;
      Move(st, e.t, flag, if WriteBits(flag) == 1 then Winning else Backing)
    case BackOff => Move(st, e.t, (st.flag - WRITE_FLAG) % WORD, Polling)
    case AwaitReaders => Move(st, e.t, st.flag, if ReadBits(st.flag) == 0 then Holding else Winning)
    case Leave => Move(st, e.t, (st.flag - WRITE_FLAG) % WORD, Outside)
  }

  ghost predicate Run(st: State, es: seq<Step>, st': State)
    decreases |es|
  {
    if es == [] then st' == st else Enabled(st, es[0]) && Run(Apply(st, es[0]), es[1..], st')
  }

  /** The threads 0 to n - 1. */
  function Ids(n: nat): (r: set<ThreadId>)
    ensures |r| == n && forall t: ThreadId :: t in r <==> t < n
  {
    if n == 0 then {} else Ids(n - 1) + {n - 1}
  }

  /** `n` threads and a free lock. */
  function Initial(n: nat): State {
    State(0, map t | t in Ids(n) :: Outside)
  }

  ghost predicate Exclusive(st: State) {
    forall t, u :: t in st.threads && u in st.threads && st.threads[t] == Holding && st.threads[u] == Holding ==> t == u
  }

  // ----- the word counts the writers that have added -----

  /** The word after `n` additions. */
  function FlagOf(n: nat): int {
    WRITE_FLAG * (n % 4096)
  }

  lemma FlagBits(n: nat)
    ensures WriteBits(FlagOf(n)) == n % 2048 && ReadBits(FlagOf(n)) == 0
  {
    assert (n % 4096) % 2048 == n % 2048;
  }

  lemma FlagAdd(n: nat)
    ensures (FlagOf(n) + WRITE_FLAG) % WORD == FlagOf(n + 1)
  {
    if n % 4096 == 4095 {
      assert (n + 1) % 4096 == 0;
    } else {
      assert (n + 1) % 4096 == n % 4096 + 1;
    }
  }

  lemma FlagSub(n: nat)
    requires n > 0
    ensures (FlagOf(n) - WRITE_FLAG) % WORD == FlagOf(n - 1)
  {
    if n % 4096 == 0 {
      assert (n - 1) % 4096 == 4095;
    } else {
      assert (n - 1) % 4096 == n % 4096 - 1;
    }
  }

  /** Adding as the n+1st writer. */
  lemma AddTo(st: State, t: ThreadId, n: nat)
    requires Enabled(st, Step(t, Add)) && st.flag == FlagOf(n)
    ensures Apply(st, Step(t, Add)) == Move(st, t, FlagOf(n + 1), if (n + 1) % 2048 == 1 then Winning else Backing)
  {
    FlagAdd(n);
    FlagBits(n + 1);
  }

  function HasAdded(): Pc -> bool { (pc: Pc) => pc == Backing || pc == Winning || pc == Holding }
  function HasWon(): Pc -> bool { (pc: Pc) => pc == Winning || pc == Holding }

  ghost predicate Inv(st: State) {
    st.flag == FlagOf(Count(st.threads, HasAdded())) && Count(st.threads, HasWon()) <= 1
  }

  lemma WonHasAdded(threads: map<ThreadId, Pc>)
    ensures Count(threads, HasWon()) <= Count(threads, HasAdded())
  {
    CardinalityMonotone(Matching(threads, HasWon()), Matching(threads, HasAdded()));
  }

  /** With at most 2048 threads only the first to add can win. */
  lemma StepKeepsInv(st: State, e: Step)
    requires Inv(st) && Enabled(st, e) && |st.threads| <= 2048
    ensures Inv(Apply(st, e)) && |Apply(st, e).threads| == |st.threads|
  {
    var st' := Apply(st, e);
    var n := Count(st.threads, HasAdded());
    CountUpdate(st.threads, e.t, st'.threads[e.t], HasAdded());
    CountUpdate(st.threads, e.t, st'.threads[e.t], HasWon());
    CountBound(st'.threads, HasAdded());
    WonHasAdded(st.threads);
    assert st'.threads.Keys == st.threads.Keys;
    if e.action == Add {
      FlagAdd(n);
      FlagBits(n + 1);
    } else if e.action == BackOff || e.action == Leave {
      CountPositive(st.threads, e.t, HasAdded());
      FlagSub(n);
    }
  }

  lemma {:induction false} RunKeepsInv(st: State, es: seq<Step>, st': State)
    requires Inv(st) && Run(st, es, st') && |st.threads| <= 2048
    ensures Inv(st')
    decreases |es|
  {
    if es != [] {
      StepKeepsInv(st, es[0]);
      RunKeepsInv(Apply(st, es[0]), es[1..], st');
    }
  }

  lemma InitialInv(n: nat)
    ensures Inv(Initial(n))
  {
    CountNone(Initial(n).threads, HasAdded());
    CountNone(Initial(n).threads, HasWon());
  }

  lemma {:induction false} ExclusiveUpTo2048(n: nat, es: seq<Step>, st: State)
    requires n <= 2048 && Run(Initial(n), es, st)
    ensures Exclusive(st)
  {
    assert Initial(n).threads.Keys == Ids(n);
    InitialInv(n);
    RunKeepsInv(Initial(n), es, st);
    forall t, u | t in st.threads && u in st.threads && st.threads[t] == Holding && st.threads[u] == Holding
      ensures t == u
    {
      if t != u {
        CountTwo(st.threads, t, u, HasWon());
      }
    }
  }

  // ----- readers -----

  /** Writers leave the reader count alone. */
  lemma WritersKeepReaders(flag: int)
    ensures ReadBits((flag + WRITE_FLAG) % WORD) == ReadBits(flag) == ReadBits((flag - WRITE_FLAG) % WORD)
  {
    var up, down := (flag + WRITE_FLAG) / WORD, (flag - WRITE_FLAG) / WORD;
    assert (flag + WRITE_FLAG) % WORD == flag + WRITE_FLAG * (1 - 4096 * up);
    assert (flag - WRITE_FLAG) % WORD == flag - WRITE_FLAG * (1 + 4096 * down);
    ReadBitsShift(flag, 1 - 4096 * up);
    ReadBitsShift(flag, -(1 + 4096 * down));
  }

  lemma ReadBitsShift(flag: int, k: int)
    ensures ReadBits(flag + WRITE_FLAG * k) == ReadBits(flag)
  {
  }

  /** As long as a reader is counted, no writer ever holds the lock, however many writers there are. */
  lemma {:induction false} ReadersKeepWritersOut(st: State, es: seq<Step>, st': State)
    requires Run(st, es, st') && ReadBits(st.flag) != 0
    requires forall t :: t in st.threads ==> st.threads[t] != Holding
    ensures forall t :: t in st'.threads ==> st'.threads[t] != Holding
    decreases |es|
  {
    if es != [] {
      WritersKeepReaders(st.flag);
      ReadersKeepWritersOut(Apply(st, es[0]), es[1..], st');
    }
  }

  // ----- nobody is locked out -----

  lemma {:induction false} RunExtend(st: State, es: seq<Step>, st': State, e: Step)
    requires Run(st, es, st') && Enabled(st', e)
    ensures Run(st, es + [e], Apply(st', e))
    decreases |es|
  {
    if es == [] {
      assert es + [e] == [e];
    } else {
      RunExtend(Apply(st, es[0]), es[1..], st', e);
      assert (es + [e])[1..] == es[1..] + [e];
    }
  }

  lemma {:induction false} ReachableInv(n: nat, es: seq<Step>, st: State)
    requires n <= 2048 && Run(Initial(n), es, st)
    ensures Inv(st) && st.threads.Keys == Ids(n) && |st.threads| == n
  {
    assert Initial(n).threads.Keys == Ids(n);
    InitialInv(n);
    RunKeepsInv(Initial(n), es, st);
    RunKeepsIds(Initial(n), es, st);
    assert |st.threads| == |st.threads.Keys|;
  }

  lemma {:induction false} RunKeepsIds(st: State, es: seq<Step>, st': State)
    requires Run(st, es, st')
    ensures st'.threads.Keys == st.threads.Keys
    decreases |es|
  {
    if es != [] {
      assert Apply(st, es[0]).threads.Keys == st.threads.Keys;
      RunKeepsIds(Apply(st, es[0]), es[1..], st');
    }
  }

  lemma {:induction false} Extend(n: nat, es: seq<Step>, st: State, e: Step) returns (es': seq<Step>, st': State)
    requires Run(Initial(n), es, st) && Enabled(st, e)
    ensures Run(Initial(n), es', st') && es' == es + [e] && st' == Apply(st, e)
  {
    RunExtend(Initial(n), es, st, e);
    es', st' := es + [e], Apply(st, e);
  }

  /** A writer that has added can take its flag back: by backing off, or by leaving the lock it won. */
  lemma {:induction false} GetsOut(n: nat, es: seq<Step>, st: State, t: ThreadId)
    returns (es': seq<Step>, st': State)
    requires n <= 2048 && Run(Initial(n), es, st) && t in st.threads && HasAdded()(st.threads[t])
    ensures Run(Initial(n), es', st') && es <= es'
    ensures Count(st'.threads, HasAdded()) == Count(st.threads, HasAdded()) - 1
  {
    ReachableInv(n, es, st);
    es', st' := es, st;
    if st.threads[t] == Winning {
      FlagBits(Count(st.threads, HasAdded()));
      es', st' := Extend(n, es, st, Step(t, AwaitReaders));
      CountUpdate(st.threads, t, Holding, HasAdded());
    }
    ghost var mid := st';
    if mid.threads[t] == Backing {
      es', st' := Extend(n, es', mid, Step(t, BackOff));
    } else {
      es', st' := Extend(n, es', mid, Step(t, Leave));
    }
    CountUpdate(mid.threads, t, st'.threads[t], HasAdded());
  }

  lemma {:induction false} AllGetOut(n: nat, es: seq<Step>, st: State) returns (es': seq<Step>, st': State)
    requires n <= 2048 && Run(Initial(n), es, st)
    ensures Run(Initial(n), es', st') && es <= es' && Count(st'.threads, HasAdded()) == 0
    decreases Count(st.threads, HasAdded())
  {
    if t :| t in st.threads && HasAdded()(st.threads[t]) {
      es', st' := GetsOut(n, es, st, t);
      es', st' := AllGetOut(n, es', st');
    } else {
      es', st' := es, st;
      CountNone(st.threads, HasAdded());
    }
  }

  /** A thread that wants a lock nobody has added to gets as far as adding. */
  lemma {:induction false} GetsToAdd(n: nat, es: seq<Step>, st: State, t: ThreadId)
    returns (es': seq<Step>, st': State)
    requires n <= 2048 && Run(Initial(n), es, st) && t < n && Count(st.threads, HasAdded()) == 0
    ensures Run(Initial(n), es', st') && es <= es'
    ensures st'.flag == st.flag == 0 && t in st'.threads && st'.threads[t] == Adding
  {
    ReachableInv(n, es, st);
    FlagBits(0);
    if HasAdded()(st.threads[t]) {
      CountPositive(st.threads, t, HasAdded());
    }
    es', st' := es, st;
    if st'.threads[t] == Outside {
      es', st' := Extend(n, es', st', Step(t, Enter));
    }
    if st'.threads[t] == Polling {
      es', st' := Extend(n, es', st', Step(t, Poll));
    }
  }

  /** From every reachable state of up to 2048 threads, every thread can come to hold the lock. */
  lemma {:induction false} EveryThreadCanHold(n: nat, es: seq<Step>, st: State, t: ThreadId)
    returns (es': seq<Step>, st': State)
    requires n <= 2048 && Run(Initial(n), es, st) && t < n
    ensures Run(Initial(n), es', st') && es <= es' && t in st'.threads && st'.threads[t] == Holding
  {
    es', st' := AllGetOut(n, es, st);
    es', st' := GetsToAdd(n, es', st', t);
    FlagBits(0);
    AddTo(st', t, 0);
    es', st' := Extend(n, es', st', Step(t, Add));
    FlagBits(1);
    es', st' := Extend(n, es', st', Step(t, AwaitReaders));
  }

  // ----- beyond 2048 threads -----

  /** The first `k` threads have seen the lock free and are about to add. */
  function Polled(n: nat, k: nat): State {
    State(0, map t | t in Ids(n) :: if t < k then Adding else Outside)
  }

  /** Thread 0 holds the lock; threads 1 to k - 1 have added and not yet backed off. */
  function Piled(n: nat, k: nat): State {
    State(FlagOf(k), PiledThreads(n, k))
  }

  function PiledThreads(n: nat, k: nat): map<ThreadId, Pc> {
    map t | t in Ids(n) :: if t == 0 then Holding else if t < k then Backing else if t < 2049 then Adding else Outside
  }

  lemma {:induction false} ReachPolled(n: nat, k: nat) returns (es: seq<Step>)
    requires k <= n
    ensures Run(Initial(n), es, Polled(n, k))
  {
    if k == 0 {
      es := [];
      assert Initial(n).threads == Polled(n, 0).threads;
    } else {
      es := ReachPolled(n, k - 1);
      var st := Polled(n, k - 1);
      RunExtend(Initial(n), es, st, Step(k - 1, Enter));
      var mid := Apply(st, Step(k - 1, Enter));
      RunExtend(Initial(n), es + [Step(k - 1, Enter)], mid, Step(k - 1, Poll));
      assert Apply(mid, Step(k - 1, Poll)).threads == Polled(n, k).threads;
      es := es + [Step(k - 1, Enter)] + [Step(k - 1, Poll)];
    }
  }

  lemma {:induction false} FirstWins(n: nat) returns (es: seq<Step>)
    requires n >= 2049
    ensures Run(Initial(n), es, Piled(n, 1))
  {
    es := ReachPolled(n, 2049);
    var st := Polled(n, 2049);
    AddTo(st, 0, 0);
    FlagBits(1);
    RunExtend(Initial(n), es, st, Step(0, Add));
    var mid := Apply(st, Step(0, Add));
    RunExtend(Initial(n), es + [Step(0, Add)], mid, Step(0, AwaitReaders));
    assert Apply(mid, Step(0, AwaitReaders)).threads == Piled(n, 1).threads;
    es := es + [Step(0, Add)] + [Step(0, AwaitReaders)];
  }

  lemma NotOne(k: nat)
    requires 2 <= k <= 2048
    ensures k % 2048 != 1
  {
  }

  lemma PiledNext(n: nat, k: nat)
    requires n >= 2049 && 2 <= k <= 2048
    ensures PiledThreads(n, k - 1)[k - 1 := Backing] == PiledThreads(n, k)
  {
  }

  lemma PileOne(n: nat, k: nat)
    requires n >= 2049 && 2 <= k <= 2048
    ensures Enabled(Piled(n, k - 1), Step(k - 1, Add))
    ensures Apply(Piled(n, k - 1), Step(k - 1, Add)) == Piled(n, k)
  {
    AddTo(Piled(n, k - 1), k - 1, k - 1);
    NotOne(k);
    PiledNext(n, k);
  }

  lemma {:induction false} ReachPiled(n: nat, k: nat) returns (es: seq<Step>)
    requires n >= 2049 && 1 <= k <= 2048
    ensures Run(Initial(n), es, Piled(n, k))
    decreases k
  {
    if k == 1 {
      es := FirstWins(n);
    } else {
      es := ReachPiled(n, k - 1);
      PileOne(n, k);
      RunExtend(Initial(n), es, Piled(n, k - 1), Step(k - 1, Add));
      es := es + [Step(k - 1, Add)];
    }
  }

  /** Thread 2048 adds to the full word, which wraps to one writer. */
  lemma LastWins(n: nat)
    requires n >= 2049
    ensures var e := Step(2048, Add);
      && Enabled(Piled(n, 2048), e)
      && Apply(Piled(n, 2048), e) == Move(Piled(n, 2048), 2048, FlagOf(2049), Winning)
  {
    AddTo(Piled(n, 2048), 2048, 2048);
  }

  lemma LastHolds(st: State)
    requires 0 in st.threads && 2048 in st.threads && st.threads[0] == Holding
    requires st.threads[2048] == Winning && st.flag == FlagOf(2049)
    ensures Enabled(st, Step(2048, AwaitReaders)) && !Exclusive(Apply(st, Step(2048, AwaitReaders)))
  {
    FlagBits(2049);
    var st' := Apply(st, Step(2048, AwaitReaders));
    assert st'.threads[0] == Holding && st'.threads[2048] == Holding;
  }

  /** With 2049 threads the count of writers wraps to one, and a second thread takes the lock. */
  lemma {:induction false} TwoHolders(n: nat) returns (es: seq<Step>, st: State)
    requires n >= 2049
    ensures Run(Initial(n), es, st) && !Exclusive(st)
  {
    es := ReachPiled(n, 2048);
    var full, add, await := Piled(n, 2048), Step(2048, Add), Step(2048, AwaitReaders);
    LastWins(n);
    RunExtend(Initial(n), es, full, add);
    LastHolds(Apply(full, add));
    RunExtend(Initial(n), es + [add], Apply(full, add), await);
    st := Apply(Apply(full, add), await);
    es := es + [add] + [await];
  }

  ghost predicate Reaches(n: nat, es: seq<Step>, st: State) {
    Run(Initial(n), es, st)
  }

  /** The lock excludes in every run of `n` threads if and only if n is at most 2048. */
  lemma {:induction false} ExclusionExactly(n: nat)
    ensures (forall es, st :: Reaches(n, es, st) ==> Exclusive(st)) <==> n <= 2048
  {
    if n <= 2048 {
      forall es, st | Reaches(n, es, st)
        ensures Exclusive(st)
      {
        ExclusiveUpTo2048(n, es, st);
      }
    } else {
      var es, st := TwoHolders(n);
      assert Reaches(n, es, st) && !Exclusive(st);
    }
  }
}
