# A verified model of the IOCP echo server

The repository holds two study versions of a Windows echo server on I/O completion ports. This
project models its stateful protocols in Dafny and proves what they guarantee over every run, or, where
the code does not guarantee it, exactly when it does.

- **Ownership of overlapped I/O contexts** (`IoContexts`, `Ownership*`, `Counting`, `WorkerThread`). Any
  number of threads, sessions and contexts. One step is one visible action of one thread: an interlocked
  operation, a pool allocation or free, a submission to Winsock, a dequeue from the port.
  `DeleteIoContext` is two steps, so other threads run between the release of the reference and the
  free. `Faults` lists everything that would crash or corrupt the process, and a step being possible
  excludes none of it; what is fixed is who may call into a session: a thread that found it through an
  outside reference and kept the pointer, whatever became of that reference since, or one that handles a
  completion of it. `WorkerThread.Server` then runs `DoIocpJob`,
  `DisconnectRequest` and `DeleteIoContext` as imperative code with arbitrary interference of the other
  threads between any two of its steps.
- **Timer queue and drain loop** (`TimerHeap`, `TimerQueue`, `Timer`, `TimerDrain`, `TimerReference`). The binary heap under
  the inverted comparator, as functions and as an object with sift loops, and the drain loop whose tasks
  push while it runs. *Intended form*: the source leaves the push a TODO (`Timer.hpp:50`) and comments
  out the lines that run and pop a job (`Timer.hpp:67-70`); as written, the loop would spin on a due job
  and nothing would ever enter the queue. The model runs and pops as those lines say, and takes a
  pushed job's tick to be `LTickCount + after`.
- **Worker start-up** (`Startup`). The create-suspended, fill, resume protocol, interleaved with workers
  that already run; the two loops of `StartIoThreads` are imperative code whose every state is one the
  state machine reaches.
- **The send path** (`CircularBuffer`, `SendProtocol`, `SendStream`), **the write lock** (`SpinLock`), **the object pool**
  (`ObjectPool`) and **the size table of the memory pool** (`MemoryPool`).

What came out false of the code as it stands, each with its exact condition:

- The protocol is not safe in every run. A step crashes if and only if it is one of four hazards, each
  visible before the step: a session's count is at 2^31 - 1; all slots of a context class are in use and
  its free list ends in a wild word; a thread calls into a session through a pointer when no outside
  reference and no unreleased context of the session is left; a worker waits on the closed port and gets
  no timeout (`FaultsExactlyOnHazards`, `HundredLiveContexts`, `PointerCallExactly`). A run leads to each
  of them (`CountOverflows`, `PoolRunsOut`, `LostCallCrashes`, `ClosedPortReached`).
- As written, `DisconnectRequest` never submits its context (line 34 of Session.hpp casts an argument list
  to a function pointer and calls nothing), so no disconnect completion is ever dequeued; and if the last
  error of the thread is WSA_IO_PENDING the context is not deleted either, and its session is never
  released (`NoDisconnectCompletes`, `AdriftForever`, `DisconnectCanLeak`).
- A receive never reaches the dispatch: a send or receive is dispatched if and only if its call succeeded
  and moved bytes, and `PostRecv` offers a buffer of length zero (`TransferDispatchedExactly`,
  `DispatchedLive`, `ReceiveTakenForFailure`).
- A flush submits if and only if the session is connected, has bytes stored and none in flight, Winsock
  accepts, and no send of the session has ever failed: nothing lowers `mSendPendingCount` on that path
  (`SubmitsExactly`, `NothingSentAfterFailure`, `StuckSession`).
- The write lock excludes if and only if at most 2048 threads use it (`ExclusionExactly`).
- The object pool serves every allocation if and only if, for each chunk whose last word does not read as
  null, no more objects are ever in use than fit in the chunks up to it (`Serve`): the loop that threads a
  chunk never writes the last link.
- `MemoryPool::Allocate` dereferences a null pool if and only if header and payload together take 3841
  to 4096 bytes (`Allocate`).
- A drain ends if and only if some k is the number of jobs due at its start plus the number that its first k
  tasks push with `after` zero (`TerminatesExactly`); so it ends when tasks push with a positive `after`
  (`NeverImmediateEnds`) and spins when every task pushes with `after` zero (`SpinsForever`).
- The reference to the top job that the loop uses after the task is valid if and only if what the task
  pushed fits the vector's capacity (`TopReference`).

The invariants are in `OwnershipInvariant`, `Timer`, `Startup`, `SendProtocol` and `SpinLock`; the lemmas that every step
keeps them are split by step so that each is small. `dafny verify dfyconfig.toml` checks the project.

## Model

| member | source | states |
|---|---|---|
| `OwnershipTheorems.FaultsExactlyOnHazards` | win-iocp/win-iocp-mssql-usage/WorkerThread.hpp:33-73 | In every reachable state of any interleaving, a possible step crashes, touches a null, wild or freed context, uses a dead session, deletes as the wrong class or reaches the crashing default if and only if it is a hazard: a 2^31st reference, a class whose slots are all in use before a wild link, a call through a pointer into a session nothing refers to, or a wait on the closed port without a timeout |
| `OwnershipTheorems.PointerCallExactly` | win-iocp/win-iocp-mssql-usage/WorkerThread.hpp:50-56 | A thread that kept a pointer to a session crashes by calling into it, or by leaving its send lock, if and only if every outside reference to it was dropped and no unreleased context of it is left |
| `OwnershipLimits.HundredLiveContexts` | win-iocp/win-iocp-mssql-usage/OverlappedIOContext.hpp:42-82 | In a process whose uninitialised memory never reads as null, building a context crashes if and only if the thread works through a pointer to an unreferenced session, the session's count is exhausted or a hundred contexts of the class are live |
| `OwnershipWitness.PoolRunsOut` | win-iocp/win-iocp-mssql-usage/OverlappedIOContext.hpp:42-82 | A run with a hundred live contexts of one class, in which building the next one crashes |
| `OwnershipWitness.CountOverflows` | win-iocp/win-iocp-mssql-usage/OverlappedIOContext.hpp:29-34 | A run to a session with 2^31 - 1 references, in which the next AddRef crashes |
| `OwnershipWitness.LostCallCrashes` | win-iocp/win-iocp-mssql-usage/WorkerThread.hpp:50-56 | A run in which a thread keeps a pointer, the only reference is dropped, and its call crashes |
| `OwnershipWitness.ClosedPortReached` | win-iocp/win-iocp-mssql-usage/IocpManager.hpp:107-118 | A run in which the port is closed under a waiting worker, whose wait can crash |
| `OwnershipLimits.WorkerLoopSafeWhileOpen` | win-iocp/win-iocp-mssql-usage/WorkerThread.hpp:21-73 | In every run in which the port was not closed, no step of a thread that only runs the worker loop crashes, but for the construction of a context when its session's count or its class's pool is exhausted |
| `OwnershipLimits.NullSafeWhileOpen` | win-iocp/win-iocp-mssql-usage/WorkerThread.hpp:39-48 | In particular no null context comes back that the worker cannot survive |
| `OwnershipLimits.ClosedPortCrashes` | win-iocp/win-iocp-mssql-usage/IocpManager.hpp:107-118 | Once Finalize has closed the port, a waiting worker never gets a completion: each wait times out and changes nothing or crashes, and a crash is always possible |
| `OwnershipLimits.WaitCanTimeOut` | win-iocp/win-iocp-mssql-usage/WorkerThread.hpp:39-48 | In every reachable state an idle worker can time out, and nothing changes |
| `OwnershipLimits.PostedCanComplete` | win-iocp/win-iocp-mssql-usage/WorkerThread.hpp:39 | In every run that left the port open an idle worker can get any posted context, with any result up to the bytes offered |
| `OwnershipLimits.DispatchCanEnd` | win-iocp/win-iocp-mssql-usage/WorkerThread.hpp:62-72 | A dispatch can end with its context kept or with its deletion |
| `OwnershipTheorems.TagsAreTheirs` | win-iocp/win-iocp-mssql-usage/OverlappedIOContext.hpp:42-82 | Every live context carries exactly the tag of its class, written out for all six |
| `OwnershipDispatch.TransferDispatchedExactly` | win-iocp/win-iocp-mssql-usage/WorkerThread.hpp:43-65 | In every run a send or receive that was taken off the port and classified was dispatched if and only if its call succeeded and moved bytes |
| `OwnershipDispatch.RunBalance` | win-iocp/win-iocp-mssql-usage/WorkerThread.hpp:39-65 | Along every run successful transfers taken off the port are those dispatched plus those being classified |
| `OwnershipTheorems.ReferenceConservation` | win-iocp/win-iocp-mssql-usage/OverlappedIOContext.hpp:29-91 | In every reachable state a session's count equals its outside references plus its contexts whose reference was not yet given back |
| `OwnershipTheorems.HeldSessionAlive` | win-iocp/win-iocp-mssql-usage/WorkerThread.hpp:39-56 | Posted contexts and contexts a thread holds are live; a posted one is unreleased; while a context is unreleased its session has references; a released one is in the hands of the thread about to free it |
| `OwnershipTheorems.ConcurrentFailures` | win-iocp/win-iocp-mssql-usage/WorkerThread.hpp:50-57 | Two threads handling failed transfers of one session hold different contexts and the session has at least two references, so neither ends it under the other |
| `OwnershipTheorems.SingleOwnership` | win-iocp/win-iocp-mssql-usage/OverlappedIOContext.hpp:84-131 | Posted, thread-held and freed contexts are disjoint, and no two threads hold one context |
| `OwnershipTheorems.ReleasedUntilFreed` | win-iocp/win-iocp-mssql-usage/OverlappedIOContext.hpp:91-93 | A context is released and still allocated if and only if some thread is about to free it, and then exactly one is; so the tag read after ReleaseRef is valid |
| `OwnershipWitness.ReleaseCanEndSession` | win-iocp/win-iocp-mssql-usage/OverlappedIOContext.hpp:84-93 | That case is real: a run reaches a state in which the release ended the session and the context is still to be freed |
| `OwnershipTheorems.EachContextOnce` | win-iocp/win-iocp-mssql-usage/WorkerThread.hpp:39-56 | Along every run each context is taken off the port at most once and freed at most once |
| `OwnershipTheorems.PoolConservation` | win-iocp/win-iocp-mssql-usage/OverlappedIOContext.hpp:42-130 | For each of the six classes, the pool's use count is the number of live contexts, and contexts built are those live plus those deleted as that same class |
| `OwnershipFailures.FailedTransfersDeleted` | win-iocp/win-iocp-mssql-usage/WorkerThread.hpp:39-60 | In every run, once no failure handling is in progress, the contexts freed by the failure branch are exactly the failed transfers taken off the port, as multisets |
| `OwnershipFailures.FailureBalance` | win-iocp/win-iocp-mssql-usage/WorkerThread.hpp:39-60 | Along every run the failed transfers taken off the port are those deleted by the failure branch plus those still in a thread's hands |
| `OwnershipWitness.FailedSendFreed` | win-iocp/win-iocp-mssql-usage/WorkerThread.hpp:50-57 | A run in which a send fails, its session is disconnected and its context is freed as a send |
| `OwnershipWitness.SendDispatched` | win-iocp/win-iocp-mssql-usage/WorkerThread.hpp:62-66 | A run in which a send of 500 bytes completes and reaches the dispatch |
| `OwnershipWitness.DispatchCalls` | win-iocp/win-iocp-mssql-usage/WorkerThread.hpp:62-72 | A run in which the worker calls into the session from the dispatch and then deletes the context |
| `OwnershipTheorems.FailureAccounting` | win-iocp/win-iocp-mssql-usage/WorkerThread.hpp:39-65 | Along every run, once no failure handling is in progress, failed transfers taken off the port, DR_COMPLETION_ERROR requests and contexts deleted for them are equally many, and all other dequeued contexts were dispatched |
| `OwnershipTheorems.DispatchedLive` | win-iocp/win-iocp-mssql-usage/WorkerThread.hpp:62-66 | A completion that reaches the dispatch is live, still holds its reference, has a live session, and is not a receive |
| `OwnershipTheorems.RunKeepsInv` | win-iocp/win-iocp-mssql-usage/WorkerThread.hpp:21-31 | The whole invariant survives every run of all workers |
| `OwnershipTheorems.EventsTallied` | win-iocp/win-iocp-mssql-usage/WorkerThread.hpp:39-60 | The counters kept in the state agree with the failures, requests, deletions and dispatches that occur along any run |
| `OwnershipTheorems.FreesLogged` | win-iocp/win-iocp-mssql-usage/OverlappedIOContext.hpp:93-130 | Along a run the contexts recorded as freed grow by exactly the contexts of its free steps, with repetition |
| `OwnershipAccounts.StepKeepsInv` | win-iocp/win-iocp-mssql-usage/OverlappedIOContext.hpp:29-131 | Every step of every thread keeps references, ownership, pools, tallies and disconnects in balance |
| `OwnershipInvariant.FaultsExactly` | win-iocp/win-iocp-mssql-usage/WorkerThread.hpp:39-65 | Under the invariant a step faults if and only if it is a hazard |
| `OwnershipInvariant.FreeSafe` | win-iocp/win-iocp-mssql-usage/OverlappedIOContext.hpp:93-130 | The tag switch after ReleaseRef never takes its default branch, picks the class the context was built as, and meets the pool's assertion |
| `WorkerThread.ForeignKeeps` | win-iocp/win-iocp-mssql-usage/WorkerThread.hpp:33-60 | No step of another thread changes the contexts a thread holds or its place |
| `WorkerThread.Server.DoIocpJob` | win-iocp/win-iocp-mssql-usage/WorkerThread.hpp:33-73 | Under interference between any two steps: a null context is survived exactly with a failed result or zero bytes and a timeout, and else the port was closed; a context of class send or receive whose call failed or moved nothing ends freed as its own class, and the disconnect context built for it, if any, met with the answer given; any other completion reaches the dispatch unchanged, unreleased, with a live session, and is no receive; with a context it crashes only if the count of that context's session or the pool of disconnect contexts is exhausted |
| `WorkerThread.Server.TakeCompletion` | win-iocp/win-iocp-mssql-usage/WorkerThread.hpp:39-50 | Dequeue and test: the thread is left failing exactly for a context of class send or receive whose call failed or moved nothing, with the context unchanged |
| `WorkerThread.Server.HandleFailure` | win-iocp/win-iocp-mssql-usage/WorkerThread.hpp:50-59 | The failure branch builds a disconnect context exactly if it finds the session connected, which ends posted, freed or adrift as the answer was, and ends idle with its own context freed as the class it was built as; it crashes only if the count of that session or the pool of disconnect contexts is exhausted |
| `WorkerThread.Server.DeleteIoContext` | win-iocp/win-iocp-mssql-usage/OverlappedIOContext.hpp:84-131 | The context is gone and recorded as deleted as the class it was built as, never posted if its builder deletes it; the thread is back in its job, about to disconnect, or idle, by the case |
| `WorkerThread.Server.Take` | win-iocp/win-iocp-mssql-usage/WorkerThread.hpp:33-73 | A step ends the process exactly on a hazard |
| `WorkerThread.Server.Interfere` | win-iocp/win-iocp-mssql-usage/WorkerThread.hpp:21-31 | The others take every step scheduled that is theirs, possible and not a crash, and keep the thread's place and contexts |
| `WorkerThread.RunPreempts` | win-iocp/win-iocp-mssql-usage/WorkerThread.hpp:21-31 | Any run of other threads can be such an interference |
| `Timer.WholeRunOrder` | win-iocp/win-iocp/Timer.hpp:22-72 | Over any pushes and drains, with tasks pushing meanwhile, executed ticks form a non-decreasing sequence, and each job runs at a tick the run sampled that is no earlier than its own |
| `Timer.RightJobPopped` | win-iocp/win-iocp/Timer.hpp:56-70 | Whatever the running task pushed, ties included, the job popped after it is the job that ran |
| `Timer.JobsConserved` | win-iocp/win-iocp/Timer.hpp:46-71 | Jobs queued plus jobs executed are exactly the jobs that the calls along the run asked for, each at `after` past the tick sampled last before its call |
| `Timer.PushedJobRuns` | win-iocp/win-iocp/Timer.hpp:46-72 | A run in which a job is pushed and executed at its tick |
| `Timer.DrainComplete` | win-iocp/win-iocp/Timer.hpp:58-71 | When a drain stops, every remaining job has a tick above the sampled one |
| `Timer.StepKeepsInv` | win-iocp/win-iocp/Timer.hpp:46-72 | Every push, drain start, iteration and drain end keeps heap order, executed order and conservation |
| `TimerQueue.HeapRefinesMultiset` | win-iocp/win-iocp/Timer.hpp:22-36 | Every sequence of pushes and pops on the heap agrees with a multiset that gives out a minimum-tick job each time |
| `TimerQueue.PopsConserve` | win-iocp/win-iocp/Timer.hpp:33-36 | Over every sequence of pushes and pops, what was queued and pushed is what was popped and is left |
| `TimerHeap.PushKeepsHeap` | win-iocp/win-iocp/Timer.hpp:33-36 | Pushing keeps heap order |
| `TimerHeap.PushKeepsTop` | win-iocp/win-iocp/Timer.hpp:22-36 | A job that is not earlier than the top leaves the top in place, ties included |
| `TimerHeap.PopKeepsHeap` | win-iocp/win-iocp/Timer.hpp:33-36 | Popping keeps heap order |
| `TimerHeap.PopHeap` | win-iocp/win-iocp/Timer.hpp:33-36 | Popping removes exactly the top job |
| `TimerHeap.TopIsMinimum` | win-iocp/win-iocp/Timer.hpp:22-36 | The top of a heap under the inverted comparator has the earliest tick of all |
| `TimerQueue.TimerJobQueue.Push` | win-iocp/win-iocp/Timer.hpp:33-36 | The sift-up loop refines the recursive push and keeps heap order |
| `TimerQueue.TimerJobQueue.Pop` | win-iocp/win-iocp/Timer.hpp:33-36 | Moving the last entry up and sinking it refines the recursive pop and keeps heap order |
| `TimerQueue.TimerJobQueue.Top` | win-iocp/win-iocp/Timer.hpp:60 | The top has a tick no later than any queued job |
| `TimerDrain.IterationDue` | win-iocp/win-iocp/Timer.hpp:58-71 | One iteration trades the job that ran for the jobs its task made due at once; nothing else due changes |
| `TimerDrain.DrainBalance` | win-iocp/win-iocp/Timer.hpp:56-71 | At any point of a drain, executed plus still due is due at the start plus made due at once |
| `TimerDrain.DrainEndsExactly` | win-iocp/win-iocp/Timer.hpp:58-71 | A drain may stop after some iterations if and only if they are as many as the jobs due at its start and made due at once |
| `TimerDrain.DrainExecutesDue` | win-iocp/win-iocp/Timer.hpp:56-71 | A finished drain executed exactly the jobs due at the start and those made due at once, one per iteration, and nothing due remains |
| `TimerDrain.TerminatesExactly` | win-iocp/win-iocp/Timer.hpp:56-71 | The loop ends if and only if some k is the number of jobs due at its start plus the number its first k tasks push with `after` zero |
| `TimerDrain.OneFewerDue` | win-iocp/win-iocp/Timer.hpp:56-71 | With positive `after`s the due jobs drop by exactly one per iteration |
| `TimerDrain.NeverImmediateEnds` | win-iocp/win-iocp/Timer.hpp:56-71 | With positive `after`s the loop ends after exactly as many iterations as there were due jobs |
| `TimerDrain.SpinsForever` | win-iocp/win-iocp/Timer.hpp:46-71 | If every task pushes with `after` zero, the loop ends if and only if nothing was due |
| `TimerReference.TopReference` | win-iocp/win-iocp/Timer.hpp:60-69 | After the task the reference of line 60 denotes the running job if and only if what the task pushed fits the capacity the vector had |
| `TimerDrain.ImmediatePushesSpin` | win-iocp/win-iocp/Timer.hpp:46-71 | With `after` zero there is, for every n, a drain of n iterations whose next job is still due |
| `TimerDrain.ThreadTimer.DoTimerJob` | win-iocp/win-iocp/Timer.hpp:53-72 | Whenever the loop ends, it has executed exactly the jobs due at the sampled tick and those made due at once, one per iteration, and nothing due remains |
| `TimerDrain.ThreadTimer.Drain` | win-iocp/win-iocp/Timer.hpp:58-71 | The loop goes through exactly the states of the drain and stops at the first in which nothing is due |
| `TimerDrain.ThreadTimer.Iterate` | win-iocp/win-iocp/Timer.hpp:60-70 | Running the top task and then popping is one step of the drain |
| `TimerDrain.ThreadTimer.PushTimerJob` | win-iocp/win-iocp/Timer.hpp:46-51 | A push adds exactly the job at the tick last sampled plus `after`, and is one step of the timer's run |
| `Startup.StartupNeverFaults` | win-iocp/win-iocp-mssql-usage/IocpManager.hpp:120-174 | For every processor count and interleaving, no index leaves the array and no null slot is dereferenced |
| `Startup.WorkerFindsItself` | win-iocp/win-iocp-mssql-usage/IocpManager.hpp:167-174 | A running worker found in its slot the object made with its own id and handle, which is still there; its index is below MAX_IOTHREAD |
| `Startup.FailedStartupRunsNothing` | win-iocp/win-iocp-mssql-usage/IocpManager.hpp:122-132 | If creation fails at k, exactly slots 0 to k-1 are filled, every thread is still suspended, and no step is possible any more |
| `Startup.StartedCompletely` | win-iocp/win-iocp-mssql-usage/IocpManager.hpp:120-140 | After start-up every thread was resumed, exactly the counted slots are filled, and they hold exactly the threads created |
| `Startup.ResumedCanRun` | win-iocp/win-iocp-mssql-usage/IocpManager.hpp:134-174 | Whatever the main thread does, a resumed thread can enter next and then runs the WorkerThread built for it |
| `Startup.AllWorkersCanRun` | win-iocp/win-iocp-mssql-usage/IocpManager.hpp:134-174 | From every state in which start-up is done there is a way on after which every worker runs its own object |
| `Startup.StartupCanSucceed` | win-iocp/win-iocp-mssql-usage/IocpManager.hpp:120-174 | For every processor count a run fills all counted slots and ends with every worker running its own object |
| `Startup.RunKeepsInv` | win-iocp/win-iocp-mssql-usage/IocpManager.hpp:120-174 | The start-up invariant survives every interleaving |
| `Startup.IocpManager.constructor` | win-iocp/win-iocp-mssql-usage/IocpManager.hpp:25-29 | Two threads until told otherwise, and every slot null |
| `Startup.IocpManager.SetThreadCount` | win-iocp/win-iocp-mssql-usage/IocpManager.hpp:37 | The count is the largest that exceeds neither the processors nor MAX_IOTHREAD |
| `Startup.IocpManager.StartIoThreads` | win-iocp/win-iocp-mssql-usage/IocpManager.hpp:120-140 | With workers running in between, the object stays in a state the machine reaches; success iff no creation failed; slots before the first failure filled with their own id and handle, the rest untouched; resumed exactly once each, in order, and none after a failure |
| `Startup.IocpManager.CreateWorkers` | win-iocp/win-iocp-mssql-usage/IocpManager.hpp:122-132 | The first loop fills exactly the slots before the first failure |
| `Startup.IocpManager.ResumeWorkers` | win-iocp/win-iocp-mssql-usage/IocpManager.hpp:134-137 | The second loop resumes each thread once, in slot order |

## Session, buffer, lock and pools

The code the protocols above rest on: the session's calls, its send path, the lock around it, and the
allocators.

| member | source | states |
|---|---|---|
| `OwnershipDispatch.ReceiveNeverSucceeds` | win-iocp/win-iocp-mssql-usage/Session.hpp:84-92 | A receive, offered no buffer, never comes off the port as a success |
| `OwnershipWitness.ReceiveTakenForFailure` | win-iocp/win-iocp-mssql-usage/Session.hpp:72-103 | A run in which a receive is posted, completes without error, and has its session disconnected |
| `OwnershipTheorems.OneDisconnectPerConnection` | win-iocp/win-iocp-mssql-usage/Session.hpp:23-42 | However many threads ask, each time a session was connected is answered by exactly one disconnect context: built, being built, or not yet asked for |
| `WorkerThread.Server.DisconnectRequest` | win-iocp/win-iocp-mssql-usage/Session.hpp:23-42 | A disconnect context is built exactly if the exchange finds the session connected; it is new, of that session, and posted when accepted, freed unposted when refused, adrift when leaked; the caller's own context is untouched; crashes only if this session's count or the pool of disconnect contexts is exhausted, or the caller works through a pointer to an unreferenced session |
| `WorkerThread.Server.FlushSend` | win-iocp/win-iocp-mssql-usage/Session.hpp:155-177 | From the construction on: the send context is new and posted when accepted, freed unposted when refused; a refused send is followed by a disconnect request before the lock is left |
| `OwnershipRefusals.RefusedSendsDisconnect` | win-iocp/win-iocp-mssql-usage/Session.hpp:162-171 | Along every run the refused sends of a session are those answered by a disconnect request plus those whose thread is still deleting the send or about to make it |
| `OwnershipHistory.RunLater` | win-iocp/win-iocp-mssql-usage/Session.hpp:23-177 | Along every run a posted context stays posted, a freed one freed as its class and unposted if it was, a live one keeps its session, class and length until freed, and one adrift stays adrift |
| `OwnershipLimits.TransfersNeedConnection` | win-iocp/win-iocp-mssql-usage/Session.hpp:44-52 | A send, receive or zero-byte receive is begun only while the session is connected, and only a send offers bytes |
| `OwnershipLimits.CallsCanBegin` | win-iocp/win-iocp-mssql-usage/Session.hpp:44-177 | A thread outside the lock that works on a live session can begin every call the session's state allows |
| `OwnershipWitness.LostFlushCrashes` | win-iocp/win-iocp-mssql-usage/Session.hpp:162-176 | A run in which the send of FlushSend completes and is freed, with the last reference, before the lock is left, and leaving it crashes |
| `OwnershipDisconnects.NoDisconnectCompletes` | win-iocp/win-iocp-mssql-usage/Session.hpp:30-41 | In every run of DisconnectRequest as written, no disconnect context ever comes off the port |
| `OwnershipDisconnects.AdriftForever` | win-iocp/win-iocp-mssql-usage/Session.hpp:30-41 | A context that is neither submitted nor deleted is never dequeued, released or freed in any later run, and its session is never released |
| `OwnershipDisconnects.DisconnectCanLeak` | win-iocp/win-iocp-mssql-usage/Session.hpp:34-41 | A run in which DisconnectRequest leaves its context so |
| `OwnershipDisconnects.CanReconnect` | win-iocp/win-iocp-mssql-usage/Session.hpp:23-28 | A run in which a session is disconnected and connected again |
| `WorkerThread.Server.BuildAndSubmit` | win-iocp/win-iocp-mssql-usage/Session.hpp:30-41 | A new context of that session, class and length is built, and is posted when accepted, freed unposted when refused, adrift when leaked, whatever others did since; the caller's own context is untouched; it crashes if and only if the count or the pool was exhausted or the caller works through a pointer to an unreferenced session |
| `CircularBuffer.Buffer.Remove` | win-iocp/win-iocp-mssql-usage/CircularBuffer.hpp:35-77 | Drops exactly the given number of bytes from the front, or all when fewer are stored, across both regions and the move of B |
| `CircularBuffer.Buffer.GetFreeSpaceSize` | win-iocp/win-iocp-mssql-usage/CircularBuffer.hpp:79-97 | The answer is the room behind region B once it is open, and before that the larger of the room behind and before region A; opening B changes neither the contents nor the answer; an empty buffer offers all its capacity |
| `CircularBuffer.Buffer.GetContiguousBytes` | win-iocp/win-iocp-mssql-usage/CircularBuffer.hpp:104-114 | Zero exactly when nothing is stored; otherwise the bytes there are the front of the contents |
| `CircularBuffer.Buffer.GetStoredSize` | win-iocp/win-iocp-mssql-usage/CircularBuffer.hpp:99-102 | The length of the contents |
| `CircularBuffer.Buffer.Append` | win-iocp/win-iocp-mssql-usage/CircularBuffer.hpp:116-138 | Copying to the append position and committing appends to the contents |
| `CircularBuffer.Buffer.TryAppend` | win-iocp/win-iocp-mssql-usage/Session.hpp:114-123 | All of the data or none of it, by whether it fits in one piece; region A does not move |
| `SendProtocol.SubmitsExactly` | win-iocp/win-iocp-mssql-usage/Session.hpp:128-190 | Over every sequence of operations, a flush submits if and only if the session is connected, has bytes stored and none in flight, Winsock accepts, and no send ever failed |
| `SendProtocol.NothingSentAfterFailure` | win-iocp/win-iocp-mssql-usage/Session.hpp:174-190 | After one failed send no byte of the session is sent again, whatever is done with it |
| `SendProtocol.StuckSession` | win-iocp/win-iocp-mssql-usage/Session.hpp:128-177 | A run that ends connected, with bytes stored and none in flight, in which a flush does not submit |
| `SendProtocol.StreamConserved` | win-iocp/win-iocp-mssql-usage/Session.hpp:105-190 | Over every sequence of operations, bytes posted are those sent followed by those stored, and those in flight are the front of the latter |
| `SendStream.SendSession.FlightInPlace` | win-iocp/win-iocp-mssql-usage/Session.hpp:155-174 | Until the completion the storage handed to WSASend still holds the bytes it was given, whatever was posted meanwhile |
| `SendStream.SendSession.PostSend` | win-iocp/win-iocp-mssql-usage/Session.hpp:105-126 | Accepts all or nothing, exactly when connected and it fits in one piece; it is one step of the protocol |
| `SendStream.SendSession.FlushSend` | win-iocp/win-iocp-mssql-usage/Session.hpp:128-177 | Submits exactly when connected, non-empty, nothing pending and not refused, and then the front of the buffer; it is one step of the protocol; disconnects exactly when not connected or refused; reports done exactly when not connected or nothing was pending |
| `SendStream.SendSession.SendCompletion` | win-iocp/win-iocp-mssql-usage/Session.hpp:185-190 | It is one step of the protocol: exactly the bytes Winsock moved leave the buffer, in order |
| `SendStream.SendSession.FailedSendCompletion` | win-iocp/win-iocp-mssql-usage/WorkerThread.hpp:50-59 | It is one step of the protocol: disconnected, and the count not lowered |
| `SendStream.SendSession.EchoBack` | win-iocp/win-iocp-mssql-usage/Session.hpp:219-234 | Bytes posted followed by bytes still to be echoed never change; progress exactly when the front piece fits |
| `SpinLock.ExclusionExactly` | win-iocp/win-iocp-mssql-usage/FastSpinLock.hpp:47-88 | The write lock excludes in every run of n threads if and only if n is at most 2048 |
| `SpinLock.ExclusiveUpTo2048` | win-iocp/win-iocp-mssql-usage/FastSpinLock.hpp:55-77 | With at most 2048 threads no run has two holders |
| `SpinLock.EveryThreadCanHold` | win-iocp/win-iocp-mssql-usage/FastSpinLock.hpp:47-88 | From every reachable state of up to 2048 threads every thread can come to hold the lock |
| `SpinLock.ReadersKeepWritersOut` | win-iocp/win-iocp-mssql-usage/FastSpinLock.hpp:65-72 | As long as a reader is counted in the word no writer ever holds the lock |
| `SpinLock.TwoHolders` | win-iocp/win-iocp-mssql-usage/FastSpinLock.hpp:133-138 | With 2049 threads the eleven write bits wrap and a run has two holders |
| `SpinLock.StepKeepsInv` | win-iocp/win-iocp-mssql-usage/FastSpinLock.hpp:55-82 | The word always counts the writers that have added and not yet taken back, and at most one has won |
| `ObjectPool.Serve` | win-iocp/win-iocp-mssql-usage/ObjectPool.hpp:9-47 | Over any sequence of allocations and frees of any held object, all allocations get a slot if and only if, for each chunk whose last word is wild, no more objects are ever in use than fit in the chunks up to it |
| `ObjectPool.ThreadChunk` | win-iocp/win-iocp-mssql-usage/ObjectPool.hpp:15-25 | Each slot of a chunk links to the next, and the last word is whatever the memory held |
| `ObjectPool.Pool.New` | win-iocp/win-iocp-mssql-usage/ObjectPool.hpp:9-35 | A slot not in use comes back if and only if the pool is not exhausted in the sense of the ownership protocol, whose pool moves with it |
| `ObjectPool.Pool.Delete` | win-iocp/win-iocp-mssql-usage/ObjectPool.hpp:37-47 | The assertion holds, the slot becomes free at the head of the list, and the protocol's pool moves with it |
| `MemoryPool.BuildTable` | win-iocp/win-iocp/MemoryPool.hpp:106-145 | Sizes 1 to 3840 get the smallest pool that holds them; 3841 to 4096 stay null |
| `MemoryPool.AddPool` | win-iocp/win-iocp/MemoryPool.hpp:116-121 | Filling up to the next pool keeps the table best-fitting |
| `MemoryPool.Allocate` | win-iocp/win-iocp/MemoryPool.hpp:147-163 | A null pool is dereferenced if and only if header and payload take 3841 to 4096 bytes; otherwise the block is the best fit, or allocated directly above 4096 |

## Left out

- TimerDrain.ThreadTimer.DoTimerJob: its precondition is that the loop ends, because a call that does not end has no result to state; TerminatesExactly says when it does. A task is given by what it pushes; owner locks, shared pointers and the assertion on the thread type are not modelled.
- Timer queue: the vector is a sequence that the methods reassign, and its memory is modelled only in TimerReference. The model reads the top job once, before the task runs. Ticks are unbounded integers, and the clock does not go back. Which of several equal ticks is popped first depends on the library's heap and is not stated.
- WorkerThread.Server.DoIocpJob: the dispatch after line 66 and `DoSendJob` are elided in the source; the model lets the thread make any session calls there and then delete or keep the context. The completion's result, context and last error are parameters, and steps of other threads that would crash the process are not taken.
- WorkerThread.Server.DisconnectRequest: covers both the call of DisconnectEx that line 34 of Session.hpp means, accepted or refused, and the line as written, which deletes or leaks the context; NoDisconnectCompletes is about the latter.
- Ownership: contexts have identities that are never reused. A session whose count drops to zero stays what it is until somebody takes a reference again; OnRelease is not shown. The send lock is a step that touches the session on the way in and one on the way out; that it excludes is stated in SpinLock. The step that connects a session stands for code the source does not show.
- SendStream: PostSend, FlushSend and SendCompletion are each one atomic operation, as under the session's send lock; mConnected is read at their start. Where the source sets mConnected is not shown; `Connect` stands for it.
- SpinLock: the read side and EnterLock, which never return as written, and lock ordering.
- ObjectPool: the member variable misspelt on line 30 is read as the one used on line 31; the mutex makes each operation atomic. Uninitialised memory is either null or wild, never the address of a slot.
- MemoryPool.Allocate: sizes are not negative; the interlocked lists behind each pool and Deallocate are not modelled.
- Startup: LWorkerThread and LWorkerThreadId (lines 170 and 173 of IocpManager.hpp) are one variable, and handles of live threads are distinct.
- The handle closing in `Finalize` apart from the port, Winsock and Win32 set-up, accepting clients, the session manager, database access, player code, LockOrderChecker and GrandCentralExecutor: foreign calls or code without a property that spans operations.
