# A verified model of the media server's runtime and streaming code

This project models three parts of the repository and proves what they are for.

1. **The State Threads runtime** (`trunk/3rdparty/st-srs`), a complete scheduler for one
   virtual processor: run queue, I/O queue, zombie queue, a pointer-based timeout heap,
   mutexes, condition variables, interrupts, joins, the free list of stacks, the epoll
   reference counts, and the loops that move vectors of bytes.
2. **Byte-exact streaming**: the extraction of MP3 frames from a chunked stream and the
   audio sender that turns packets into frames of one size.
3. **The asynchronous writer of the invitation store**, with callers and the writer thread
   interleaved step by step.

How the scheduler is built up:

| file | what it holds |
|---|---|
| `HeapModel.dfy`, `TimeoutHeap.dfy` | the timeout heap: as a sequence in level order with its laws, and with real nodes, `left`, `right` and `heap_index`; every pointer operation is proved to do to the tree what the sequence operation does |
| `CircularList.dfy` | the list macros, on real links |
| `Epoll.dfy` | counts per descriptor, the kernel's interest list and the event list counter |
| `SchedModel.dfy` | every call as a function on the global state; a call that blocks is one step up to the context switch and one step after it |
| `SchedInvariant.dfy`, `SchedSteps.dfy`, `SchedRuns.dfy`, `SchedTheorems.dfy` | the invariant, and that each call, the idle thread and so every run keep it |
| `SchedProgress.dfy`, `SchedJoin.dfy`, `SchedTimeouts.dfy`, `SchedGuarantees.dfy` | what callers can rely on over whole runs |
| `SchedEffects.dfy`, `SchedChanges.dfy`, `SchedAnswers.dfy` | what each call does, said without the functions that compute it; why records change; and what the answer of a call that had to wait means, over whole runs |
| `SleepQueue.dfy` | the heap of real nodes asked by thread number: what the pointer code does to the tree is what the functions on the global state do to its sleep queue |
| `Vp.dfy` | the same calls as methods that change the fields of one object in place, with their loops, joined to the epoll layer and to the heap of real nodes; each is proved equal to its function and keeps the invariant |

A run is any sequence of steps from the state after `st_init`: calls of the running thread
with any arguments that name existing objects, resumptions after a context switch, and
turns of the idle thread with any events and any clock. Nothing limits the number of
threads, objects or steps.

Results that are worth knowing, because the code does not do quite what its documentation
says or what one might expect:

- `st_mutex_lock` that had to wait prefers a hand-over to an interrupt: interrupted or not, it
  returns 0 when the caller has been made the owner, and the interrupt stays pending. From such
  a lock EINTR means exactly that the caller is not the owner. A lock that finds an interrupt
  pending returns EINTR at once, even to the owner.
- No assumption about the number of joiners is needed. A second thread that starts to join
  after a first join has succeeded but before the target has gone waits until it is
  interrupted (`SchedJoin.LateJoinerWaits`); no invariant breaks.
- Timers that expire in one look at the clock run in the reverse order of their deadlines.
- The invitation store does not always keep terminal records out of the active shard:
  `update_status(id, "pending", status="accepted")` leaves one there, because the store looks
  at the parameter and the record takes the keyword argument
  (`InvitationStore.HiddenTerminalStatus`). A call keeps the active shard free of them exactly
  if it neither puts such a record nor updates an active one in that way, and keeps the shards
  disjoint exactly if it puts no id that is in the archive (`InvitationStore.ProgramKeeps`).
- A failing `ws.send` loses exactly the frame being sent, and ends the sender.

## Model

| member | source | states |
|---|---|---|
| HeapModel.InsertCorrect | trunk/3rdparty/st-srs/sched.c:392-425 | inserting keeps the due-time order and adds exactly the one entry |
| HeapModel.DeleteCorrect | trunk/3rdparty/st-srs/sched.c:431-501 | deleting any position keeps the due-time order and removes exactly the entry there, whether the last entry lies below it or elsewhere |
| HeapModel.RootIsMinimum | trunk/3rdparty/st-srs/sched.c:392-501 | in an ordered heap nobody is due before the root |
| TimeoutHeap.CountBits | trunk/3rdparty/st-srs/sched.c:396-403 | the number of bits that the descent along the path of an index starts from |
| TimeoutHeap.Heap.Descend | trunk/3rdparty/st-srs/sched.c:404-420 | following the bits of an index reaches the slot of exactly that index, and the entries passed on the way are exchanged as on the path of the model |
| TimeoutHeap.Heap.HeapInsert | trunk/3rdparty/st-srs/sched.c:392-425 | the tree of nodes is again complete, with every `heap_index` right, and holds what the model's insertion gives |
| TimeoutHeap.Heap.Exchange | trunk/3rdparty/st-srs/sched.c:405-412 | putting a node into a slot hands it the children and index of the one it replaces, and changes nothing else |
| TimeoutHeap.Heap.FindLast | trunk/3rdparty/st-srs/sched.c:436-449 | the bits of the size lead to the slot of the last node |
| TimeoutHeap.Heap.UnlinkLast | trunk/3rdparty/st-srs/sched.c:450-452 | the tree loses exactly its last node |
| TimeoutHeap.Heap.Replace | trunk/3rdparty/st-srs/sched.c:453-461 | the last node takes the place of the removed one, also when it was its child |
| TimeoutHeap.Heap.SiftDownFrom | trunk/3rdparty/st-srs/sched.c:463-498 | sinking a node by pointer rotations gives what sinking it in the model gives |
| TimeoutHeap.Heap.HeapDelete | trunk/3rdparty/st-srs/sched.c:431-501 | the tree is complete on one position less, every `heap_index` right, and holds what the model's deletion gives |
| TimeoutHeap.Heap.AddSleepQ | trunk/3rdparty/st-srs/sched.c:504-510 | exactly the one thread is added, with its deadline |
| TimeoutHeap.Heap.DelSleepQ | trunk/3rdparty/st-srs/sched.c:513-517 | exactly the one thread leaves the heap |
| TimeoutHeap.Heap.RootIsEarliest | trunk/3rdparty/st-srs/sched.c:504-517 | the root node is due no later than any node of the tree |
| SleepQueue.HeapNumbers | trunk/3rdparty/st-srs/sched.c:392-501 | the heap looks only at deadlines: inserting and deleting nodes inserts and deletes thread numbers at the same places |
| SleepQueue.Sleepers.Listed | trunk/3rdparty/st-srs/sched.c:504-517 | a thread is in the sleep queue exactly if the flag of its record says so, and then its `heap_index` is its place |
| SleepQueue.Sleepers.Add | trunk/3rdparty/st-srs/sched.c:504-510 | on the real nodes, the sleep queue of the scheduler gains the thread |
| SleepQueue.Sleepers.Del | trunk/3rdparty/st-srs/sched.c:513-517 | on the real nodes, the sleep queue of the scheduler loses the thread, wherever it stands |
| SleepQueue.Sleepers.First | trunk/3rdparty/st-srs/sched.c:561-565 | the root node is the first of the sleep queue, and there is none exactly if nobody sleeps |
| CircularList.InsertAfter | trunk/3rdparty/st-srs/common.h:100-107 | the ring of links gains exactly the new one, at its place, and every link of it is right in both directions |
| CircularList.InsertBefore | trunk/3rdparty/st-srs/common.h:91-98 | the same, before an element |
| CircularList.RemoveLink | trunk/3rdparty/st-srs/common.h:122-127 | the ring loses exactly the element, which keeps its own pointers |
| CircularList.InitClist | trunk/3rdparty/st-srs/common.h:134-139 | a link that points to itself is the empty ring |
| Epoll.TallyNames | trunk/3rdparty/st-srs/event.c:957-1050 | a descriptor has a positive count exactly if some entry names it |
| Epoll.EpollSys.constructor | trunk/3rdparty/st-srs/event.c:871-915 | with nothing queued, nothing is counted or watched |
| Epoll.EpollSys.FdDataExpand | trunk/3rdparty/st-srs/event.c:922-940 | the table grows to cover the descriptor and keeps every count |
| Epoll.EpollSys.EvtlistExpand | trunk/3rdparty/st-srs/event.c:942-955 | the event list grows to hold the registered descriptors, or stays when there is no memory |
| Epoll.EpollSys.PollsetDel | trunk/3rdparty/st-srs/event.c:957-994 | the counts become those of the remaining entries, and the kernel watches what they ask for, except where a fired descriptor puts that off |
| Epoll.EpollSys.AddEntry | trunk/3rdparty/st-srs/event.c:1014-1038 | one entry is counted; on success the kernel watches what the counts ask for |
| Epoll.EpollSys.PollsetAdd | trunk/3rdparty/st-srs/event.c:996-1050 | success counts and watches exactly the new entries as well; failure, at whatever entry, leaves counts, interest list and event counter as they were, also with repeated and shared descriptors; EINVAL needs an invalid entry and ENOMEM an allocation or a kernel call that failed |
| Epoll.RecordedHas | trunk/3rdparty/st-srs/event.c:1098-1107 | an event is recorded for a descriptor exactly if it fired there, or is one that is awaited there and an error fired |
| Epoll.ReportHas | trunk/3rdparty/st-srs/event.c:1113-1132 | an entry is told exactly of what fired and it asked for, and of errors |
| Epoll.EpollSys.WatchesWhatIsAsked | trunk/3rdparty/st-srs/event.c:957-1050 | outside dispatch the kernel watches a descriptor for exactly those of reading, writing and urgent data that some queued entry for it asks for |
| Epoll.RecordedIff | trunk/3rdparty/st-srs/event.c:1098-1107 | after recording, exactly the descriptors that fired have events |
| Epoll.EpollSys.Fire | trunk/3rdparty/st-srs/event.c:1098-1107 | what fired is recorded, error bits with all awaited events, and nothing else changes |
| Epoll.EpollSys.Settle | trunk/3rdparty/st-srs/event.c:1153-1164 | afterwards nothing is recorded and kernel and counts agree for every descriptor |
| Epoll.EpollSys.FdNew | trunk/3rdparty/st-srs/event.c:1168-1174 | the table covers the new descriptor unless it could not grow, and keeps every count |
| Epoll.EpollSys.FdClose | trunk/3rdparty/st-srs/event.c:1176-1184 | a descriptor is busy exactly if a queued entry names it |
| SchedQueues.WithoutCuts | trunk/3rdparty/st-srs/common.h:122-127 | unlinking an element cuts exactly that one out; the others keep their order |
| SchedQueues.WithoutPollCuts | trunk/3rdparty/st-srs/sched.c:116-119 | unlinking a thread's request cuts exactly that one out of the I/O queue; the others keep their descriptors and order |
| SchedInvariant.ScheduleKeeps | trunk/3rdparty/st-srs/sched.c:138-163 | the thread that is chosen is runnable, so the assertion holds; it is the idle one exactly if the run queue is empty |
| SchedInvariant.ReadyKeeps | trunk/3rdparty/st-srs/sched.c:520-577 | waking a waiting thread, by whatever cause, keeps every queue in agreement with the records |
| SchedSteps.PollBlocks | trunk/3rdparty/st-srs/sched.c:104-113 | a thread that goes to wait for I/O is on the I/O queue once and asleep if it gave a timeout |
| SchedSteps.LockBlocks | trunk/3rdparty/st-srs/sync.c:312-316 | a thread waits only for a mutex that another one owns |
| SchedSteps.UnmapKeeps | trunk/3rdparty/st-srs/stk.c:84-99 | unmapping all freed stacks breaks nothing and brings their count to zero |
| SchedSteps.CreateKeeps | trunk/3rdparty/st-srs/sched.c:630-693 | a created thread enters the run queue and nothing else |
| SchedTheorems.InitIsGood | trunk/3rdparty/st-srs/sched.c:169-229 | the invariant holds after initialisation |
| SchedTheorems.StepKeeps | trunk/3rdparty/st-srs/sched.c:87-693 | every call, every resumption and every turn of the idle thread keeps the invariant |
| SchedTheorems.RunsAreGood | trunk/3rdparty/st-srs/sched.c:87-693 | so it holds in every state of every run |
| SchedTheorems.CondDoneStep | trunk/3rdparty/st-srs/sync.c:201-215 | the second half of a wait, with its join loop, keeps the invariant |
| SchedTheorems.ExitStep | trunk/3rdparty/st-srs/sched.c:285-325 | an exit, with the signal to the joiner, keeps the invariant |
| SchedTheorems.IdleStep | trunk/3rdparty/st-srs/sched.c:262-282 | a turn of the idle thread keeps the invariant |
| SchedTheorems.UnlockStep | trunk/3rdparty/st-srs/sync.c:330-355 | handing a mutex over keeps the invariant |
| SchedRuns.SignalKeeps | trunk/3rdparty/st-srs/sync.c:225-245 | exactly the chosen waiters become runnable, in the order of the wait queue, whoever else was woken before |
| SchedRuns.PoppedContents | trunk/3rdparty/st-srs/sched.c:520-578 | each sleeper is either taken or left, none lost or doubled |
| SchedRuns.MovedOrKept | trunk/3rdparty/st-srs/event.c:1108-1151 | dispatch splits the I/O queue without losing or doubling a request |
| SchedRuns.DispatchKeeps | trunk/3rdparty/st-srs/event.c:1098-1165 | dispatch makes exactly the threads of the moved requests runnable and keeps the invariant |
| SchedProgress.StepPass | trunk/3rdparty/st-srs/sched.c:87-693 | what any step may do to the record of a thread that is not running; only a look at the clock marks a wait as timed out |
| SchedJoin.CountsChange | trunk/3rdparty/st-srs/sched.c:285-295 | only an exit and a creation change the count of active threads; numbers are never used again |
| SchedJoin.JoinResult | trunk/3rdparty/st-srs/sched.c:328-365 | a join succeeds only when its target is a zombie; it takes it off the zombie queue and returns its value |
| SchedJoin.JoinedOnce | trunk/3rdparty/st-srs/sched.c:328-365 | in a whole run a thread is joined successfully at most once |
| SchedJoin.LateJoinerWaits | trunk/3rdparty/st-srs/sched.c:348-365 | a thread that waits to join one that has been joined already is woken by nothing but an interrupt |
| SchedJoin.ExitValue | trunk/3rdparty/st-srs/sched.c:285-306 | a thread in its exit holds the value it gave to `st_thread_exit` |
| SchedJoin.JoinReturnsExitValue | trunk/3rdparty/st-srs/sched.c:285-365 | a successful join returns what its target gave to `st_thread_exit` earlier in the run |
| SchedTimeouts.ClockWakes | trunk/3rdparty/st-srs/sched.c:520-578 | exactly the sleepers due by now leave the heap; they stand before the old run queue, latest due first; exactly those waiting for a condition are flagged; all that is left is due later |
| SchedTimeouts.SleeperOrigin | trunk/3rdparty/st-srs/sched.c:504-510 | in every run, an entry of the heap is the sleep that its thread asked for in the wait it is still in, with the deadline it asked for |
| SchedTimeouts.FlagOrigin | trunk/3rdparty/st-srs/sched.c:561-577 | a thread flagged as timed out was flagged before, or the clock has just found its wait late while nothing else had reached it |
| SchedTimeouts.EtimeMeansLate | trunk/3rdparty/st-srs/sync.c:181-216 | in every run, ETIME means that the caller's own deadline had passed when the clock was read, before any signal or interrupt |
| SchedAnswers.ClockEndsSleeps | trunk/3rdparty/st-srs/sched.c:262-282 | in every run, each turn of the idle thread and each yield sets the clock and ends every sleep that is due: its thread runs or is runnable, and is flagged as timed out exactly if it waited for a condition; no sleep that is left is due |
| SchedAnswers.EveryWakeHasACause | trunk/3rdparty/st-srs/sched.c:87-627 | in every run, a thread that is awake where it waited was woken in one earlier step, by a signal, the exit of its target, the clock, dispatch, a hand-over or an interrupt, and has not run since |
| SchedAnswers.CondAnswers | trunk/3rdparty/st-srs/sync.c:181-216 | in every run, a wait for a condition answers EINTR exactly if the thread has been interrupted; otherwise ETIME exactly if the clock found this wait late, and 0 exactly if a signal ended it |
| SchedAnswers.SleepAnswers | trunk/3rdparty/st-srs/sync.c:117-141 | in every run, a sleep answers EINTR exactly if the thread has been interrupted, and otherwise 0, after the time that it asked for |
| SchedAnswers.PollAnswers | trunk/3rdparty/st-srs/sched.c:87-134 | in every run, a poll answers EINTR exactly if the thread has been interrupted, and otherwise the number of its descriptors with events: with none, the time that it asked for has passed; with some, they are exactly the events that a turn of the idle thread was told of and the poll asked for, and errors |
| SchedAnswers.RequestOrigin | trunk/3rdparty/st-srs/sched.c:98-104 | a request on the I/O queue asks for what its thread asked for when it called |
| SchedAnswers.InterruptKept | trunk/3rdparty/st-srs/sched.c:610-627 | only a call of the thread itself that answers EINTR takes an interrupt down |
| SchedAnswers.InterruptLasts | trunk/3rdparty/st-srs/sched.c:610-627 | so in every run an interrupted thread stays interrupted until such an answer |
| SchedAnswers.InterruptedCall | trunk/3rdparty/st-srs/sync.c:117-133 | with an interrupt pending, a sleep, poll, wait or lock answers EINTR at once, takes it down, and does nothing else |
| SchedAnswers.InterruptReaches | trunk/3rdparty/st-srs/sched.c:610-627 | in every run, after an interrupt of a thread that is not a zombie the next of these calls of it answers EINTR, also if it had been running or runnable |
| SchedChanges.StepChanges | trunk/3rdparty/st-srs/sched.c:87-693 | whatever a step does to the record of a thread that is not running is one of seven changes, each with its cause |
| SchedChanges.StepOwn | trunk/3rdparty/st-srs/sched.c:87-693 | what a step does to the record of the running thread: a call that answers is back in user code, one that waits is in the state of its wait |
| SchedEffects.UsleepDoes | trunk/3rdparty/st-srs/sync.c:117-133 | a sleep puts exactly the caller into its state and onto the heap, due that much after the clock, and the head of the run queue runs |
| SchedEffects.PollDoes | trunk/3rdparty/st-srs/sched.c:87-113 | a poll puts its request last on the I/O queue and the caller to wait, with its timeout; an interrupt and a failing addition come first |
| SchedEffects.CondWaitDoes | trunk/3rdparty/st-srs/sync.c:181-199 | a wait puts the caller last on the wait queue and, with a timeout, onto the heap |
| SchedEffects.LockDoes | trunk/3rdparty/st-srs/sync.c:291-316 | every outcome of a lock, with the state that it leaves |
| SchedEffects.UnlockDoes | trunk/3rdparty/st-srs/sync.c:330-355 | every outcome of an unlock: EPERM to anybody but the owner, and else the mutex to the first thread still in LOCK_WAIT or to nobody |
| SchedEffects.TrylockDoes | trunk/3rdparty/st-srs/sync.c:358-369 | a try gives a free mutex to the caller, and answers EBUSY for any other |
| SchedEffects.SignalDoes | trunk/3rdparty/st-srs/sync.c:225-257 | a signal wakes the first thread still in COND_WAIT, a broadcast all of them in the order of the wait queue, and no other sleep ends |
| SchedEffects.InterruptDoes | trunk/3rdparty/st-srs/sched.c:610-627 | an interrupt flags its target whatever its state, unless it is a zombie; if it waits it becomes runnable, last on the run queue, and leaves the heap; nothing else changes |
| SchedEffects.JoinDoes | trunk/3rdparty/st-srs/sched.c:328-365 | every outcome of a join at once: the three errors, the value of a zombie, which is let go, EINTR, or a wait |
| SchedEffects.JoinDoneDoes | trunk/3rdparty/st-srs/sched.c:348-365 | a join that was woken answers EINTR exactly if it was interrupted, and else the value of its target, a zombie that it lets go |
| SchedEffects.ExitDoes | trunk/3rdparty/st-srs/sched.c:285-325 | an exit keeps its value, wakes the joiner that waits, and leaves a zombie; a thread that cannot be joined is gone at once, its stack before the last free one |
| SchedEffects.ExitDoneDoes | trunk/3rdparty/st-srs/sched.c:305-325 | the end of an exit drops the termination variable if nobody waits for it |
| SchedEffects.CreateDoes | trunk/3rdparty/st-srs/sched.c:630-693 | a creation unmaps the free stacks; its new thread is blank and last on the run queue; both ways of running out of memory |
| SchedEffects.YieldDoes | trunk/3rdparty/st-srs/sched.c:581-607 | a yield looks at the clock, and if anybody is runnable then, the caller goes last |
| SchedEffects.IdleDoes | trunk/3rdparty/st-srs/sched.c:262-282 | a turn of the idle thread is a dispatch, a look at the clock, and a switch to whoever is runnable then |
| SchedEffects.ServedExactly | trunk/3rdparty/st-srs/event.c:1108-1136 | what dispatch reports to an entry, in terms of what fired and what is asked for |
| SchedEffects.SleepDoneDoes | trunk/3rdparty/st-srs/sync.c:135-141 | the answer and the state after a sleep, a yield, or the start of a thread |
| SchedEffects.PollDoneDoes | trunk/3rdparty/st-srs/sched.c:115-134 | the answer and the state after a poll; a request still queued is cut out |
| SchedEffects.CondDoneDoes | trunk/3rdparty/st-srs/sync.c:201-215 | the answer and the state after a wait: an interrupt counts before a timeout, and both flags go down |
| SchedEffects.LockDoneDoes | trunk/3rdparty/st-srs/sync.c:318-327 | the answer and the state after a lock that waited: 0 exactly for the owner, whose interrupt stays pending |
| SchedEffects.ObjectsDo | trunk/3rdparty/st-srs/sync.c:155-178 | new condition variables and mutexes are empty; one in use is not destroyed |
| SchedGuarantees.ThreadsAreInPlace | trunk/3rdparty/st-srs/sched.c:87-163 | in every reachable state each thread is exactly on the queues that its state and flags imply, and only a wait that is over carries the time-out flag |
| SchedGuarantees.NothingIsQueuedTwice | trunk/3rdparty/st-srs/sched.c:87-163 | no queue holds a thread twice, and all hold only threads that exist |
| SchedGuarantees.DispatchIsExact | trunk/3rdparty/st-srs/event.c:1108-1151 | with an empty run queue, exactly the requests with an event leave the I/O queue, their threads run in that order, and the others stay in order |
| SchedGuarantees.SplitIsExact | trunk/3rdparty/st-srs/event.c:1108-1151 | the positions that dispatch picks are exactly those with an event |
| SchedGuarantees.FreeMutexHasNoWaiter | trunk/3rdparty/st-srs/sync.c:291-355 | a mutex without an owner keeps nobody in LOCK_WAIT |
| SchedGuarantees.LockOutcome | trunk/3rdparty/st-srs/sync.c:312-327 | a lock that waited returns 0 exactly if the caller owns the mutex and EINTR exactly if not |
| SchedGuarantees.LockAtOnce | trunk/3rdparty/st-srs/sync.c:291-316 | a lock returns 0 at once exactly if nobody owns the mutex and no interrupt is pending, and then the caller owns it; otherwise it fails and leaves every mutex alone, or queues the caller last |
| SchedGuarantees.UnlockHandsOver | trunk/3rdparty/st-srs/sync.c:330-355 | unlocking gives the mutex to the first waiter still in LOCK_WAIT, and frees it exactly if there is none |
| SchedGuarantees.OwnerChanges | trunk/3rdparty/st-srs/sync.c:291-369 | no step changes an owner but taking a free mutex and the owner's own unlock |
| SchedGuarantees.OwnershipLasts | trunk/3rdparty/st-srs/sync.c:291-369 | over any stretch of a run an owner stays the owner until it unlocks |
| SchedGuarantees.SignalWakes | trunk/3rdparty/st-srs/sync.c:225-257 | a signal wakes exactly the first waiter still in COND_WAIT, a broadcast exactly all of them |
| SchedGuarantees.UnmappedStacksAreDead | trunk/3rdparty/st-srs/stk.c:84-99 | in every run, no stack that is unmapped belongs to a thread that can still run, and the counter of free stacks is right |
| SchedGuarantees.ActiveCountIsRight | trunk/3rdparty/st-srs/sched.c:285-295 | in every run the count is the creations, and the first thread, less the exits begun, and equals the threads in that condition |
| Vp.Vp.constructor | trunk/3rdparty/st-srs/sched.c:169-229 | initialisation reaches the first state of every run |
| Vp.Vp.TreeOfSleepers | trunk/3rdparty/st-srs/sched.c:504-577 | whenever the invariant holds, the tree links the records of exactly the sleeping threads, so of none that has been unmapped, and the root is due no later than any of them |
| Vp.Vp.SwitchContext | trunk/3rdparty/st-srs/sched.c:138-163 | the head of the run queue runs, or else the idle thread |
| Vp.Vp.CheckClock | trunk/3rdparty/st-srs/sched.c:520-578 | the loop, which takes root after root off the tree of nodes, does what the model's clock does |
| Vp.Vp.Signal | trunk/3rdparty/st-srs/sync.c:225-245 | the loop over the wait queue wakes what the model wakes |
| Vp.Vp.Unlock | trunk/3rdparty/st-srs/sync.c:330-355 | the loop finds the first waiter still in LOCK_WAIT, and need not look at the sleep queue |
| Vp.Vp.Lock | trunk/3rdparty/st-srs/sync.c:291-316 | the first half of a lock |
| Vp.Vp.LockDone | trunk/3rdparty/st-srs/sync.c:318-327 | the second half of a lock |
| Vp.Vp.Trylock | trunk/3rdparty/st-srs/sync.c:358-369 | a try takes the mutex or finds it busy |
| Vp.Vp.Usleep | trunk/3rdparty/st-srs/sync.c:117-133 | the first half of a sleep |
| Vp.Vp.SleepDone | trunk/3rdparty/st-srs/sync.c:135-141 | the second half of a sleep |
| Vp.Vp.CondWait | trunk/3rdparty/st-srs/sync.c:181-199 | the first half of a wait |
| Vp.Vp.CondDone | trunk/3rdparty/st-srs/sync.c:201-215 | the second half of a wait, with what a join does after it |
| Vp.Vp.JoinLoop | trunk/3rdparty/st-srs/sched.c:348-365 | a join waits until its target is a zombie and then releases it |
| Vp.Vp.Join | trunk/3rdparty/st-srs/sched.c:328-365 | the error cases of a join and its first half |
| Vp.Vp.Yield | trunk/3rdparty/st-srs/sched.c:581-607 | a yield looks at the clock and gives way if anybody is runnable |
| Vp.Vp.GoOn | trunk/3rdparty/st-srs/sched.c:600-607 | the end of a yield, or the start of a thread: it runs on in user code |
| Vp.Vp.Resume | trunk/3rdparty/st-srs/sched.c:138-163 | every thread that gets the processor, the idle one apart, can finish the call that it was in, and does what the model says |
| Vp.Vp.Interrupt | trunk/3rdparty/st-srs/sched.c:610-627 | an interrupt flags its target and wakes it if it waits |
| Vp.Vp.Exit | trunk/3rdparty/st-srs/sched.c:285-303 | the first half of an exit |
| Vp.Vp.ExitDone | trunk/3rdparty/st-srs/sched.c:305-325 | the second half of an exit |
| Vp.Vp.FreeStack | trunk/3rdparty/st-srs/stk.c:135-143 | where a freed stack goes on the free list, and the count |
| Vp.Vp.UnmapStacks | trunk/3rdparty/st-srs/stk.c:84-99 | the loop empties the free list and the memory of exactly those threads |
| Vp.Vp.Create | trunk/3rdparty/st-srs/sched.c:630-693 | a creation, with both ways in which it can run out of memory |
| Vp.Vp.Poll | trunk/3rdparty/st-srs/sched.c:87-113 | the first half of a poll; the epoll counts stay those of the I/O queue, and it fails only if the epoll layer refuses |
| Vp.Vp.PollDone | trunk/3rdparty/st-srs/sched.c:115-134 | the second half of a poll; a request still queued leaves the queue and the counts |
| Vp.Vp.ReadyFds | trunk/3rdparty/st-srs/sched.c:120-125 | the loop counts the descriptors with events |
| Vp.Vp.Withdraw | trunk/3rdparty/st-srs/sched.c:116-119 | a request leaves the I/O queue and its entries leave the counts, wherever it stands |
| Vp.Vp.ServeEntry | trunk/3rdparty/st-srs/event.c:1113-1132 | what is reported to an entry |
| Vp.Vp.Serve | trunk/3rdparty/st-srs/event.c:1109-1136 | the loop over the entries of a request |
| Vp.Vp.ServeRequests | trunk/3rdparty/st-srs/event.c:1108-1151 | the loop over the I/O queue moves and keeps the requests that the model moves and keeps |
| Vp.Vp.Dispatch | trunk/3rdparty/st-srs/event.c:1098-1165 | dispatch does what the model's does, and leaves counts, interest list and I/O queue in agreement |
| Vp.Vp.IdleTurn | trunk/3rdparty/st-srs/sched.c:262-282 | a turn of the idle thread |
| Vp.Vp.CondNew | trunk/3rdparty/st-srs/sync.c:155-165 | a new condition variable has no waiters |
| Vp.Vp.CondDestroy | trunk/3rdparty/st-srs/sync.c:168-178 | a condition variable with waiters is not destroyed |
| Vp.Vp.MutexNew | trunk/3rdparty/st-srs/sync.c:264-275 | a new mutex is free |
| Vp.Vp.MutexDestroy | trunk/3rdparty/st-srs/sync.c:278-288 | a mutex that is owned or waited for is not destroyed |
| Vp.Vp.NetfdNew | trunk/3rdparty/st-srs/io.c:154-186 | opening a descriptor makes the table cover it and leaves the scheduler and every count alone |
| Vp.Vp.NetfdClose | trunk/3rdparty/st-srs/io.c:203-210 | closing is refused exactly for the descriptors that a queued request names |
| VectorIo.Process.WritevResid | trunk/3rdparty/st-srs/io.c:572-616 | under any short writes, EAGAIN and EINTR, the bytes accepted are a prefix, each once and in order, and the remaining vectors describe exactly the rest; 0 means that no vector is left, and -1 exactly that a call has failed for good |
| VectorIo.Process.ReadvResid | trunk/3rdparty/st-srs/io.c:417-454 | the bytes that came in are stored once and in order, and the remaining vectors describe exactly the untouched rest; -1 means exactly that a call has failed for good, and 0 with something left to read only that the stream has ended |
| VectorIo.Consume | trunk/3rdparty/st-srs/io.c:434-446 | using up vectors drops exactly the bytes moved from what they describe, with empty vectors and without leaving the array |
| VectorIo.Process.Write | trunk/3rdparty/st-srs/io.c:480-485 | a prefix of the buffer is accepted; the whole count is returned exactly if no call has failed for good, and then all of it has been accepted |
| VectorIo.Process.ReadFully | trunk/3rdparty/st-srs/io.c:457-462 | the bytes taken from the stream are at the front of the buffer, and their number is returned unless a call has failed for good; it is short only at the end of the stream |
| VectorIo.Process.Writev | trunk/3rdparty/st-srs/io.c:488-569 | a prefix of the bytes is sent, each once and in order; the total is returned exactly if it is all of them, and otherwise -1, which needs a call that failed for good or an allocation that did |
| VectorIo.FindNext | trunk/3rdparty/st-srs/io.c:527-530 | the scan stops inside the vectors, at the one that holds the next byte |
| VectorIo.FillIn | trunk/3rdparty/st-srs/io.c:543-551 | the copy describes exactly what is left |
| VectorIo.EnoughRoom | trunk/3rdparty/st-srs/io.c:532-551 | later copies fit into what was allocated for the first |
| VectorIo.Process.SysRead | trunk/3rdparty/st-srs/io.c:421-431 | a read delivers a prefix of what has been sent and not read, and nothing only when nothing was asked for or the stream has ended |
| VectorIo.Converse | trunk/3rdparty/st-srs/io.c:457-485 | with `st_write` at one end of a FIFO channel and `st_read_fully` at the other, in any order, number and sizes, with partial results and errors: the reader's buffers hold, one after the other, a prefix of what was taken from the writer's; what is missing has arrived or is on the way; a read is short only when the writer has closed and all has been read; if the reader asks for the sizes written, it gets the very messages |
| VectorIo.ScatterRange | trunk/3rdparty/st-srs/io.c:376-388 | what was stored contiguously is read back, and nothing else was touched |
| Mp3Frames.FrameLengthBounds | audio_translation_service_websocket.py:1376-1414 | which headers have a length, and that it is from 24 to 1441 bytes |
| Mp3Frames.FrameLengthIs | audio_translation_service_websocket.py:1394-1414 | the lengths of frames in closed form, from rates and sampling rates that follow a rule |
| Mp3Frames.ExtractCuts | audio_translation_service_websocket.py:1416-1448 | extraction cuts the stream at complete frames, leaving out only positions without a header, and keeps what follows the last |
| Mp3Frames.CutsAreUnique | audio_translation_service_websocket.py:1416-1448 | there is no other way to cut it so |
| Mp3Frames.FramesAreFrames | audio_translation_service_websocket.py:1422-1442 | every frame is as long as its own header says |
| Mp3Frames.ChunkIndependent | audio_translation_service_websocket.py:1371-1448 | extracting from one chunk and then from its remainder and the next gives what extracting from both gives |
| Mp3Frames.AnyChunks | audio_translation_service_websocket.py:1371-1448 | so it does for any number of chunks |
| Mp3Frames.WholeFrames | audio_translation_service_websocket.py:1371-1448 | a stream of whole frames is extracted whole, with nothing left |
| Mp3Frames.ExtractAgain | audio_translation_service_websocket.py:1371-1448 | extracting from the result changes nothing |
| Mp3Frames.ExtractCompleteFrames | audio_translation_service_websocket.py:1416-1448 | the cursor loop extracts exactly that, and every byte is emitted, kept or counted as dropped |
| InvitationStore.ProgramCovered | invitation_store.py:201-290 | every call leaves a mark for each shard that it changes, after the change |
| InvitationStore.ProgramKeeps | invitation_store.py:201-290 | a call keeps the shards disjoint exactly if it puts no id that is in the archive, and the active one free of terminal records exactly if it brings none in by a put or by a keyword argument of an update to a status that is not terminal |
| InvitationStore.ProgramDoes | invitation_store.py:201-290 | what each call leaves in memory: a record that reaches a terminal status is in the archive and no longer active, and has the status and the last assignment to each entry; a sweep does so to each expired invitation; no other record changes |
| InvitationStore.CallTakesEffect | invitation_store.py:201-290 | so in every run, once the lock is free again, whatever ran in between |
| InvitationStore.IdsStay | invitation_store.py:201-290 | in every run, whenever the lock is free, an id that was once in a shard is still in one |
| InvitationStore.HiddenTerminalStatus | invitation_store.py:231-246 | an update to "pending" with the keyword argument status="accepted" leaves a terminal record in the active shard |
| InvitationStore.ReusedId | invitation_store.py:201-205 | a put of an archived id leaves the id in both shards |
| InvitationStore.StepKeeps | invitation_store.py:146-182 | every step of every caller and of the writer keeps the invariant |
| InvitationStore.FilesCatchUp | invitation_store.py:146-182 | at every moment of every run, a file that differs from its shard has a mark queued, held by the writer, or about to be left |
| InvitationStore.IdleMeansSaved | invitation_store.py:146-182 | when all are idle each file holds an entry for exactly the ids of its shard, with their records |
| InvitationStore.WriterCatchesUp | invitation_store.py:146-182 | once no call is under way, the writer comes to rest after a bounded number of its own steps, in whatever order it takes them, and not before the files hold what memory holds |
| InvitationStore.ShardsStayTidy | invitation_store.py:201-290 | over any run and whenever the lock is free: the shards share no id if no put has used an archived one, and the active shard holds no terminal record if no call has brought one in |
| InvitationStore.Store.Put | invitation_store.py:201-205 | a put does the steps of the model: the new record is active under its id and one mark is left |
| InvitationStore.Store.UpdateStatus | invitation_store.py:213-246 | an update does the steps of the model on the record itself, moves it to the archive exactly for a terminal status, leaves the marks for what it changed, and says if it was found |
| InvitationStore.Store.FindExpired | invitation_store.py:274-278 | exactly the expired pending invitations are found |
| InvitationStore.Store.SweepExpired | invitation_store.py:272-290 | a sweep moves exactly those to the archive, expired, and counts them |
| InvitationStore.Store.WriterTurn | invitation_store.py:151-179 | a turn of the writer takes marks in order and brings exactly the marked files up to date |
| AudioSender.ChunkIs | baidu_realtime_translation.py:234-240 | a chunk holds 120 ms of audio, 3840 bytes at the rate of the service |
| AudioSender.Sender.AddAudio | baidu_realtime_translation.py:495-511 | a packet is accepted exactly while the sender runs and the queue is not full |
| AudioSender.Sender.SendAudioThread | baidu_realtime_translation.py:234-293 | whatever other threads and the network do, every frame has the chunk length, and silence falls only between packets and only after a long pause; each turn takes a packet, finds none, or sends a chunk or loses it; the loop ends when stopped, or in a turn in which a send or a local write fails; nothing is lost unless a send fails |
| AudioSender.Sender.SendChunk | baidu_realtime_translation.py:249-262 | one chunk moves from the front of the accumulated bytes to the wire; a failing send loses exactly that chunk, a failing local write loses nothing |
| AudioSender.Sender.LoopTurn | baidu_realtime_translation.py:246-288 | one turn: a full chunk is sent; otherwise the oldest packet is taken; otherwise, with nothing accumulated and more than 50 empty looks in a row, one frame of silence is sent |
| AudioSender.Sender.TakePacket | baidu_realtime_translation.py:265-284 | the oldest packet joins the accumulated bytes |
| AudioSender.Sender.NothingIsLost | baidu_realtime_translation.py:234-293 | bytes sent, lost, accumulated and queued are, in this order, exactly the packets accepted |
| AudioSender.Sender.SilenceSplitsNothing | baidu_realtime_translation.py:273-281 | before a silence a whole number of packets has been sent |

## Left out

- Thread records, mutexes and condition variables of the scheduler are values in maps under numbers that are never used again; that a mutex whose owner has gone may seem owned by a later thread at the same address is not captured. Pointers are modelled in `CircularList.dfy` and, for the sleep queue, in `TimeoutHeap.dfy`.
- The run, I/O, zombie and wait queues of `Vp.dfy` are sequences; the methods on rings are proved to do the same to their links, but are not called from there. Records of unmapped threads stay in `Sleepers.nodes`, outside the tree.
- Thread start functions, per-thread data and its destructors (`key.c`), switch callbacks, `setjmp` and `longjmp`, debugging and valgrind code.
- The default build is modelled: stacks are unmapped, not cached (`MD_CACHE_STACK` is not defined). The layout of a stack segment, its red zones and stack randomisation are address arithmetic of a few lines and would add only easy members.
- The select and kqueue backends; `EEXIST` from the kernel; the timeout that is passed to `epoll_wait`.
- What the kernel does is a parameter: outcomes of allocations and of additions to the interest list, the events that fire, the clock. Changes and removals of registered descriptors succeed, and `epoll_wait` reports distinct watched descriptors with events.
- Deadlines are unbounded integers: the wrap-around of the clock plus a timeout is not modelled.
- Calls name existing objects, and user code keeps off termination variables; what the C code does with dangling pointers is not modelled. A request to interrupt a thread whose record has been unmapped is such a call.
- `st_timecache_set` and `st_time`.
- When `epoll_wait` returns nothing, the `revents` of queued entries keep what an earlier dispatch stored; the model does the same.
- Process: system calls follow a finite script and fail when it has run out, so that every loop ends; every finite behaviour of the kernel is some script. `IOV_MAX` and `SSIZE_MAX` are not modelled, and `read` and `readv` do not differ.
- VectorIo.Converse: calls at the two ends do not overlap in the model, but bytes arrive during a read as any schedule says; a write that overlaps a read does to the reader what the same write does before it, its bytes arriving later.
- Mp3Frames.FrameLengthBounds: the source divides floats and truncates; the model divides integers, which gives the same for every entry of the tables because no quotient that is not whole comes near a whole number.
- InvitationStore: loading with its migration of old files, crash recovery, draining on `stop`, failing disk writes, and the read-only queries. A write during which one of its records changes may leave any content in the file, or fail.
- AudioSender.Sender.SendAudioThread: runs as long as a script of its surroundings; other threads act between turns, which loses nothing because a turn touches the queue once. Pacing and logging are left out, and so is a second sender started after the first has failed.
- All HTTP and WebSocket servers, FFmpeg processes, translation clients, authentication, the other stores and the Go tools.
