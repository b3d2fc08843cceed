# Verified models of the firmware's stateful cores

The repository builds firmware for an mbed board: an RTX real-time kernel, the lwIP network stack and a JTAG
driver. This project models the cores whose correctness rests on state kept over many calls, and proves what
they are for. Each core is modelled twice where the original updates memory in place: as functions on values,
about which the properties are proved, and as a class or a method with the original's fields, loops and stores,
which is proved to do exactly what those functions say.

| files | what they model |
|---|---|
| `Links`, `RtxOrder`, `RtxList` | the linked ready, wait and delay lists of the kernel, pointer by pointer |
| `RtxSched`, `RtxRest`, `RtxSpec`, `RtxObjects`, `RtxKeeps`, `RtxFacts`, `RtxFrames` | kernel calls on values, the kernel invariant and its preservation over every run |
| `RtxIsr`, `RtxDrain`, `RtxRobin`, `RtxWaits`, `RtxCounts`, `RtxInherit`, `RtxMail`, `RtxFifo` | interrupt path, requests that outlive their target, round-robin turns, time-outs, tokens and mutex levels, priority inheritance, mailboxes and their order |
| `RtxTimes`, `RtxEvents`, `RtxEffects`, `RtxGrants` | what each call does to time-outs, event flags, the tasks in line for the processor, priorities and results, said without the functions that define the calls |
| `RtxScenes` | concrete kernel states on which a promise fails |
| `RtxScheduler`, `RtxKernel`, `RtxPending` | the kernel's memory as two classes whose methods refine those calls, and the drain of any queue |
| `UserTimers` | the list of user timers and its tick |
| `IsrQueue`, `IsrProgress` | the queue from interrupt handlers to PendSV, one memory access at a time, and what gets done undisturbed |
| `MemHeap` | the lwIP heap: blocks, the headers in memory, runs on values and in memory |
| `SelectProtocol`, `SelectHistory` | lwip_select against event_callback, as interleaved steps, and what that means for the callbacks and calls of a run |
| `Jtag` | the driver over a TAP controller, a debug port that may answer WAIT, and a memory access port |
| `Checksum` | the Thumb-2 Internet checksum |
| `NetconnWrite`, `NetconnOutcomes` | blocking writes on a TCP netconn, and the result of each |
| `DnsTable`, `DnsSchedule` | the resolver's table of queries, and the packets of each |

## How the models are set up

- A kernel call, a tick and a pass of `rt_pop_req` are each one atomic step, and the context switch that ends it
  makes `os_tsk.run` equal to `os_tsk.new_tsk`. The idle task is never blocked, and makes no calls but
  those that create threads and objects before the kernel starts.
- A pointer is an integer, NULL is 0; a C structure's field is a map from pointers to values, so aliasing and
  stale links are part of the model.
- Fields of 8, 16 and 32 bits wrap where the C fields do: tokens, mutex levels, switch times, `os_time`, heap
  sizes, DNS counters.
- Pins, clocks, TCP, the network and time are parameters: a chip, answers of `tcp_sndbuf` and `tcp_write`,
  packets, ticks. Every theorem holds for all of their values and orders.
- The memory access port obeys the access size in CSW, so a set-up for bytes or half-words would not pass.
- The JTAG chip follows clause 6 of IEEE Std 1149.1 and the JTAG-DP and MEM-AP of ARM's ADIv5. An access to DRW
  through RDBUFF's address with the instruction register still at APACC, which the driver makes, is modelled as
  the access it is.

## Where the code and what it promises differ

- `rt_sem_send` and the interrupt path let 16-bit token counters wrap. The calls of tasks look at the count first
  and lose no token (`RtxCounts.CheckedFits`); `isrSemaphoreRelease` looks at it when a request is queued
  (rt_CMSIS.c:1433), not when it is handled. A run loses a token exactly if some release finds the counter at 65535
  with nobody waiting (`RtxCounts.RunBalance`); `RtxScenes.TokensLost` is a state in which two queued releases leave none.
- `isr_evt_set` looks for its task when it queues a request (rt_Event.c:137-146), `rt_evt_psh` not again when it is
  handled: a task deleted in between, while it waited for these flags, becomes ready (`RtxScenes.DeadTaskRuns`).
- `rt_pop_req` handles a release by the type that the block has by then (rt_System.c:213-226). If the semaphore was
  deleted that is the type of a task, and the release sets no flags on it: nothing happens
  (`RtxDrain.DeletedIgnored`), unless the second byte of the block, which is a task's state, reads as an event wait.
  Only the saved priority of a mutex that the block was before can be there, 5 or 6, if the block was not cleared as
  the C++ wrappers do (Semaphore.cpp:31). If the block is a mutex by then its level rises or a waiter of it is woken,
  if a mailbox it gets a NULL message. `RtxDrain.DrainExactly` is the exact condition for a drain to equal the calls;
  `RtxScenes.MutexLost` and `RtxScenes.FormerMutexHarms` are states in which it does not.
- The 65536th nested lock of a mutex wraps its level to 0 with tasks still waiting; `RtxCounts.LockSound` is the
  exact condition, `RtxScenes.LockUnsound` a state in which it happens, and runs that do it are not legal runs.
- `rt_mut_wait` compares the caller with the priority that the owner had at its first lock (rt_Mutex.c:177), so a
  later waiter of middle priority lowers an owner that is already raised. `RtxInherit.InheritsExactly` says when the
  owner is at least as urgent as all waiters after a lock, `RtxInherit.CoversBreaks` which other calls can end it, `RtxScenes.OwnerLowered` is a state in which it ceases to be.
- `mem_malloc` stores the aligned size in a 16-bit `mem_size_t`, so that requests of 65533 to 65535 bytes get 12;
  `HeapRuns.MallocHonours` is the exact condition. `mem_trim` does the same (mem.c:391-400): a request to grow a
  block to one of these sizes, which mem.c:376-378 promises to refuse, shrinks it to 12 bytes;
  `HeapRuns.TrimHonours` is the exact condition, `HeapRuns.HugeTrimShrinks` an instance.
- `memRead` and `memWrite` set TAR once per 1024 words, so a base that is not 4 KB aligned can wrap inside its
  page; `JtagDriver.AddressesAreLinear` is the exact condition, `JtagDriver.UnalignedWraps` an instance.
- Two threads that write to one netconn share `op_completed`, and one can return on the acknowledgement of the
  other, also while its own message still waits in the mailbox of the tcpip thread (tcpip.c:312-313;
  `NetconnProtocol.CallersCross`, `NetconnProtocol.QueuedCallersCross`). Its request lives on its stack
  (api_lib.c:588-613), and `do_write` or the next `do_writemore` would read and write it (api_msg.c:1203-1292), so an
  early return is the last step of a run in the model. `NetconnProtocol.EarlyReturn` says in which states it can
  happen and `NetconnProtocol.EarlyExactly` in which runs: those in which a write is called before the earlier ones
  have returned. `NetconnProtocol.RunAlone` covers the single caller.
- A DNS answer with a time to live of 0 is kept for 2^32 ticks; `DnsProtocol.CachedExactly` says so. After the
  8-bit sequence number wraps a query can be refused although answered entries could be reused;
  `DnsProtocol.RefusedWhen` is the exact condition, `DnsProtocol.RefusedWithRoom` an instance.
- `event_callback` does not look at maxfdp1 (sockets.c:1314-1328), so bits at or above it can wake a thread with
  nothing ready (`SelectProtocol.SignalledForNothing`).
- `rt_ms2tick` divides a 32-bit sum that wraps for ticks of more than about 295 seconds and long times; the result
  is then 13 ticks or less and too short. `TickCount.CoversExactly` is the exact condition, `TickCount.LongTicksWrap`
  an instance.
- `svcTimerStart` on a running timer restarts it with the new time but keeps its old period.

## Model

| member | source | states |
|---|---|---|
| `RtxOrder.EnterSorted` | src/mbed-rtos/rtx/rt_List.c:60-90 | queueing behind the tasks of the same or a higher priority keeps a list sorted by non-increasing priority |
| `RtxList.FindPrio` | src/mbed-rtos/rtx/rt_List.c:69-73 | the search loop stops at the first node whose priority is lower, however long the list is |
| `RtxList.PutPrio` | src/mbed-rtos/rtx/rt_List.c:60-90 | after the stores the links represent the list with the task inserted at its priority position, doubly linked unless it is the ready list |
| `RtxList.GetFirst` | src/mbed-rtos/rtx/rt_List.c:95-113 | takes exactly the head: the links represent the rest of the list and the task is on no list |
| `RtxList.PutRdyFirst` | src/mbed-rtos/rtx/rt_List.c:118-124 | the links represent the ready list with the task in front |
| `RtxList.GetSameRdyPrio` | src/mbed-rtos/rtx/rt_List.c:129-140 | returns the head of the ready list exactly when it has the running task's priority |
| `RtxList.RmvList` | src/mbed-rtos/rtx/rt_List.c:249-272 | unlinks the task from whichever list holds it, found through its back links or by searching the ready list; no other list changes |
| `RtxList.FindDelay` | src/mbed-rtos/rtx/rt_List.c:186-193 | the walk stops at the first position whose summed deltas reach the new delay |
| `RtxList.PutDly` | src/mbed-rtos/rtx/rt_List.c:170-205 | the delta fields and both link fields represent the delay list with the task at its delay |
| `RtxList.RmvDly` | src/mbed-rtos/rtx/rt_List.c:277-297 | the fields represent the delay list without the task, whose delta its successor inherits |
| `Delays.RemainingIsSum` | src/mbed-rtos/rtx/rt_List.c:170-205 | remaining time is the sum of the deltas in front of a task |
| `Delays.PutKeepsOthers` | src/mbed-rtos/rtx/rt_List.c:170-205 | the new task gets exactly its delay and nobody else's changes |
| `Delays.DropKeepsOthers` | src/mbed-rtos/rtx/rt_List.c:277-297 | removal changes nobody else's remaining time |
| `Delays.PutFits` | src/mbed-rtos/rtx/rt_List.c:186-204 | no 16-bit difference written by an insertion overflows or underflows |
| `RtxWaits.ExpireReleasesExactly` | src/mbed-rtos/rtx/rt_List.c:210-244 | a tick takes exactly the tasks with one tick left off the delay list and off every wait list, in place |
| `RtxWaits.ExpireStates` | src/mbed-rtos/rtx/rt_List.c:210-244 | exactly the tasks that reach zero become READY; no other state changes |
| `RtxRest.RunningIsHighest` | src/mbed-rtos/rtx/rt_Task.c:117-139 | between calls the running task has the highest priority of all tasks that can run |
| `RtxRest.ReadyListIsReadyTasks` | src/mbed-rtos/rtx/rt_Task.c:117-158 | the ready list holds each READY active or idle task exactly once, sorted, and nothing else |
| `RtxIsr.DispatchIsInsertion` | src/mbed-rtos/rtx/rt_Task.c:117-139 | dispatching a task is inserting it by priority into the running task followed by the ready list |
| `RtxRest.TskPrioSettles` | src/mbed-rtos/rtx/rt_Task.c:189-221 | a change of priority, re-sorting included, leaves all lists sorted and the most urgent task chosen |
| `RtxRest.TskDeleteSettles` | src/mbed-rtos/rtx/rt_Task.c:225-257 | termination of the caller or of another task keeps the scheduling invariant |
| `RtxRest.TskCreateSettles` | src/mbed-rtos/rtx/rt_CMSIS.c:577-612 | thread creation keeps the scheduling invariant |
| `RtxRest.BlockSettles` | src/mbed-rtos/rtx/rt_Task.c:144-158 | blocking the running task with or without a time-out keeps the scheduling invariant |
| `RtxObjects.CallSettles` | src/mbed-rtos/rtx/rt_Task.c:117-257 | every call, tick and drain leaves lists, states and priorities consistent and the most urgent task chosen |
| `RtxKeeps.CallKeepsInvariant` | src/mbed-rtos/rtx/rt_Task.c:117-257 | each call keeps the whole invariant, with no task blocked on something already available: semaphore waiters mean no tokens, a free mutex has no waiters, receivers wait only on an empty and senders only on a full ring, no task that waits for all of some flags has every one of them set, bit by bit, and none that waits for any has one |
| `RtxKeeps.RunKeepsInvariant` | src/mbed-rtos/rtx/rt_System.c:203-281 | the invariant holds after every run of legal calls, ticks and drains |
| `RtxFacts.BootRests` | src/mbed-rtos/rtx/rt_Task.c:263-320 | the memory that start-up leaves satisfies the invariant |
| `RtxFrames.CallFrame` | src/mbed-rtos/rtx/rt_Task.c:117-257 | calls on one object type change no object of another type, and only a tick changes the clock and the round-robin block |
| `RtxCounts.CallBalance` | src/mbed-rtos/rtx/rt_Semaphore.c:94-178 | one call: tokens before plus releases equals tokens after plus grants, plus 65536 for each release that found the counter full with nobody waiting |
| `RtxCounts.ReleaseCounts` | src/mbed-rtos/rtx/rt_Semaphore.c:94-178 | a release, called or queued, loses no token if and only if somebody waits or the counter is below 65535; else the counter reads 0 |
| `RtxCounts.RunBalance` | src/mbed-rtos/rtx/rt_Semaphore.c:94-178 | over a run, initial tokens plus releases equals tokens plus grants plus 65536 for each release that found the counter full with nobody waiting; no token is lost if and only if no release, where it is made, does |
| `RtxCounts.CheckedFits` | src/mbed-rtos/rtx/rt_CMSIS.c:1390-1410 | releases by tasks, which look at the count first, lose none in any run |
| `RtxCounts.QueuedReleasesWrap` | src/mbed-rtos/rtx/rt_CMSIS.c:1425-1446 | two releases queued by handlers on a semaphore of 65534 tokens leave none |
| `RtxScenes.TokensLost` | src/mbed-rtos/rtx/rt_CMSIS.c:1425-1446 | a concrete kernel state with the invariant in which that drain is legal |
| `RtxKeeps.ClearedStillWaits` | src/mbed-rtos/rtx/rt_Event.c:123-132 | clearing flags never completes a wait |
| `RtxCounts.OnlyOwnerLowers` | src/mbed-rtos/rtx/rt_Mutex.c:103-191 | the nesting level of a taken mutex falls only by its owner's release or by the wrap of its own lock; the last release passes it to the first waiter |
| `RtxCounts.LockSound` | src/mbed-rtos/rtx/rt_Mutex.c:157-191 | locking keeps the mutex sound if and only if it is not its owner's 65536th nested lock while others wait |
| `RtxScenes.LockUnsound` | src/mbed-rtos/rtx/rt_Mutex.c:162-172 | a concrete kernel state with the invariant in which that lock makes the mutex read as free |
| `RtxInherit.InheritsExactly` | src/mbed-rtos/rtx/rt_Mutex.c:175-188 | after a caller has queued for a mutex, its owner is as urgent as every waiter if and only if no other waiter outranks the caller where the owner is given the caller's priority, and the owner outranked all of them before where it is left alone |
| `RtxInherit.CoversBreaks` | src/mbed-rtos/rtx/rt_Mutex.c:65-191 | while a mutex is held at the same level only a change of priority, a lock, or the release or deletion of a mutex can end that its owner is as urgent as all its waiters |
| `RtxScenes.OwnerLowered` | src/mbed-rtos/rtx/rt_Mutex.c:175-180 | a concrete kernel state with the invariant in which a waiter of middle priority lowers an owner that another waiter had raised |
| `RtxWaits.SendJoinsQueue` | src/mbed-rtos/rtx/rt_Mailbox.c:70-118 | a sent message goes to the waiting receiver of an empty queue, to the end of the ring, or on a full ring to the sender's place among the blocked senders; a call that may not wait leaves a full mailbox alone |
| `RtxWaits.WaitTakesOldest` | src/mbed-rtos/rtx/rt_Mailbox.c:123-174 | a receiver gets the oldest message of ring plus blocked senders and the rest keeps its order; it waits only if there is none |
| `RtxMail.OthersBalance` | src/mbed-rtos/rtx/rt_Mailbox.c:70-174 | a call that does not name the mailbox takes from it only the messages of senders that time out or are deleted |
| `RtxMail.CallMail` | src/mbed-rtos/rtx/rt_Mailbox.c:70-174 | one call: messages held and sent equal messages held afterwards, received and lost |
| `RtxMail.RunMail` | src/mbed-rtos/rtx/rt_Mailbox.c:70-174 | over every run no message is lost or duplicated but those of senders that time out or are deleted |
| `RtxFifo.CallOrder` | src/mbed-rtos/rtx/rt_Mailbox.c:70-174 | one call: what is in the ring and what enters it comes out in that order |
| `RtxFifo.RunOrder` | src/mbed-rtos/rtx/rt_Mailbox.c:70-174 | over every run the messages received and then those in the ring are those that were in the ring and those that entered it, in the order in which they entered |
| `RtxFifo.RunFifo` | src/mbed-rtos/rtx/rt_Mailbox.c:70-174 | if no sender waits for room, over every run the messages received and then those in the ring are those that were there and those that the calls sent and the mailbox accepted, in the order of the calls |
| `RtxIsr.PushIsThreadStep` | src/mbed-rtos/rtx/rt_Semaphore.c:158-178 | handling one queued request, whose target is still there, equals making the call, up to where the running task is kept |
| `RtxIsr.DrainEqualsCalls` | src/mbed-rtos/rtx/rt_System.c:203-234 | draining any queue of releases and event sets whose targets are still there ends in exactly the state that the calls one by one end in |
| `RtxDrain.DrainExactly` | src/mbed-rtos/rtx/rt_System.c:203-234 | draining any queue of requests for objects that may have been deleted or re-created since ends in the memory of the calls if and only if each request is harmless: its task is active or its flags change nothing; its semaphore is one still, or has no type and a second byte that does not make it look like a waiting task; a block that is a mailbox now never is, and a mutex only without waiters and with a multiple of 65536 releases |
| `RtxDrain.DeletedIgnored` | src/mbed-rtos/rtx/rt_Semaphore.c:64-88 | a queued release of a deleted semaphore changes nothing, as the call does not, unless the block looks like a waiting task |
| `RtxDrain.MutexRaised` | src/mbed-rtos/rtx/rt_Semaphore.c:158-178 | a release that meets a new mutex without waiters raises its level and leaves it without an owner |
| `RtxScenes.DeletedAgrees` | src/mbed-rtos/rtx/rt_Semaphore.c:64-88 | a concrete kernel state with the invariant in which a queued release of a deleted semaphore is ignored |
| `RtxScenes.MutexLost` | src/mbed-rtos/rtx/rt_Semaphore.c:158-178 | a concrete kernel state with the invariant in which a queued release leaves a free mutex taken by nobody |
| `RtxScenes.FormerMutexHarms` | src/mbed-rtos/rtx/rt_Event.c:159-186 | a concrete kernel state with the invariant in which a release of a block that was a mutex before makes a difference |
| `RtxPending.PopAny` | src/mbed-rtos/rtx/rt_System.c:203-234 | in place: rt_pop_req on the pointer structures ends in the memory that DrainAny says, or stops in os_error, for requests whose target may be gone, unless a block looks like a waiting task |
| `RtxPending.MbxPsh` | src/mbed-rtos/rtx/rt_Mailbox.c:228-288 | in place: hands the message to a receiver, or stores that of the first blocked sender, or stores it in the ring, or stops on a full ring |
| `RtxDrain.DeadTaskReturns` | src/mbed-rtos/rtx/rt_Event.c:159-186 | a request for a task that was deleted while it waited, and whose wait it completes, makes the task ready again, and run if it is the most urgent; the call would do nothing |
| `RtxScenes.DeadTaskRuns` | src/mbed-rtos/rtx/rt_Event.c:137-186 | a concrete kernel state with the invariant after whose drain a deleted task runs |
| `RtxRobin.DistanceStep` | src/mbed-rtos/rtx/rt_Robin.c:64-79 | a tick brings the 16-bit clock one nearer to the switch time, across its wrap |
| `RtxRobin.TurnComes` | src/mbed-rtos/rtx/rt_Robin.c:64-79 | the i-th ready task of the running task's priority runs after exactly the rest of the slice and i more slices, at most i + 1 times tout ticks, if no more urgent task wakes |
| `RtxRobin.CallKeepsRobin` | src/mbed-rtos/rtx/rt_Robin.c:64-79 | slices stay within bounds over every call, so the turn bound applies at any point of a run |
| `RtxScheduler.Scheduler.constructor` | src/mbed-rtos/rtx/rt_Task.c:263-320 | start-up leaves pointer structures that represent the initial scheduler state |
| `RtxScheduler.Scheduler.PutPrio` | src/mbed-rtos/rtx/rt_List.c:60-90 | in place: the represented lists change by the insertion alone |
| `RtxScheduler.Scheduler.GetFirst` | src/mbed-rtos/rtx/rt_List.c:95-113 | in place: the represented lists change by the removal of the head alone |
| `RtxScheduler.Scheduler.RmvList` | src/mbed-rtos/rtx/rt_List.c:249-272 | in place: the represented lists change by the unlinking alone |
| `RtxScheduler.Scheduler.PutDly` | src/mbed-rtos/rtx/rt_List.c:170-205 | in place: the represented delay list gains the task at its delay |
| `RtxScheduler.Scheduler.RmvDly` | src/mbed-rtos/rtx/rt_List.c:277-297 | in place: the represented delay list loses the task |
| `RtxScheduler.Scheduler.FindHead` | src/mbed-rtos/rtx/rt_List.c:157-160 | the walk along back links ends at the object whose list holds the task |
| `RtxScheduler.Scheduler.ResortPrio` | src/mbed-rtos/rtx/rt_List.c:145-165 | in place: the task moves to its priority position within the list it is on |
| `RtxScheduler.Scheduler.DecDly` | src/mbed-rtos/rtx/rt_List.c:210-244 | in place: the pointer and delta fields afterwards represent every remaining time lowered by one, with exactly the tasks that reach zero taken off their lists and made ready by priority |
| `RtxScheduler.Scheduler.Dispatch` | src/mbed-rtos/rtx/rt_Task.c:117-139 | in place: the more urgent of the given and the running task is chosen, the other is queued in front or by priority, and every other list, field and back link represents what it did |
| `RtxScheduler.Scheduler.Block` | src/mbed-rtos/rtx/rt_Task.c:144-158 | in place: the running task gets its wait state, its place on the delay list at its time-out, and the head of the ready list is chosen; nothing else moves (RtxTimes.CallWaits has the time-outs) |
| `RtxScheduler.Scheduler.TskPass` | src/mbed-rtos/rtx/rt_Task.c:163-173 | in place: the running task yields behind the ready tasks of its priority, and only to one of those |
| `RtxScheduler.Scheduler.TskPrio` | src/mbed-rtos/rtx/rt_Task.c:189-221 | in place: the changed task moves within its list, ready or waiting, and the most urgent task is chosen |
| `RtxScheduler.Scheduler.TskDelete` | src/mbed-rtos/rtx/rt_Task.c:225-257 | in place: the task leaves its list and the delay list, whichever they are; a task that ends itself hands over to the next ready one |
| `RtxScheduler.Scheduler.TskCreate` | src/mbed-rtos/rtx/rt_CMSIS.c:577-612 | in place: the new task competes with the running one, over links that may be stale from a former life |
| `RtxScheduler.Scheduler.WakeAll` | src/mbed-rtos/rtx/rt_Semaphore.c:70-82 | every waiter of a deleted object becomes ready |
| `RtxScheduler.Scheduler.HandTo` | src/mbed-rtos/rtx/rt_Mutex.c:137-149 | in place: who continues after a hand-over, the caller's priority having dropped |
| `RtxKernel.Kernel.constructor` | src/mbed-rtos/rtx/rt_Task.c:263-320 | a kernel with any set of control blocks starts with the invariant |
| `RtxKernel.Kernel.SemSend` | src/mbed-rtos/rtx/rt_Semaphore.c:94-115 | either the first waiter leaves wait and delay list, gets result 1 and competes, or the token count rises by one modulo 2^16; no other field changes |
| `RtxKernel.Kernel.SemWait` | src/mbed-rtos/rtx/rt_Semaphore.c:120-142 | takes a token, or refuses at once, or queues the caller by priority, with its time-out, and passes the processor on; no other field changes |
| `RtxKernel.Kernel.SemPsh` | src/mbed-rtos/rtx/rt_Semaphore.c:158-178 | the release as rt_pop_req makes it: the waiter becomes ready and nobody is dispatched yet |
| `RtxKernel.Kernel.Discard` | src/mbed-rtos/rtx/rt_Semaphore.c:64-88 | deletion wakes all waiters and runs the most urgent task |
| `RtxKernel.Kernel.EvtWait` | src/mbed-rtos/rtx/rt_Event.c:51-80 | in place: the step that RtxEvents.WaitTakesFlags describes flag by flag, on the pointer structures |
| `RtxKernel.Kernel.EvtSet` | src/mbed-rtos/rtx/rt_Event.c:85-118 | in place: the step that RtxEvents.SetEndsWait describes flag by flag, on the pointer structures |
| `RtxKernel.Kernel.EvtClr` | src/mbed-rtos/rtx/rt_Event.c:123-132 | clears exactly these flags of an active task |
| `RtxKernel.Kernel.EvtPsh` | src/mbed-rtos/rtx/rt_Event.c:159-186 | the event set as rt_pop_req makes it: a task whose wait is complete becomes ready and nobody is dispatched yet |
| `RtxKernel.Kernel.MutWait` | src/mbed-rtos/rtx/rt_Mutex.c:157-191 | takes a free mutex, nests, refuses, or queues the caller after raising the owner to its priority and moving the owner within the list that it is on |
| `RtxKernel.Kernel.MutRelease` | src/mbed-rtos/rtx/rt_Mutex.c:103-152 | only the owner lowers the level; the last release restores its priority and passes mutex and level 1 to the first waiter, with the right task running afterwards |
| `RtxKernel.Kernel.MutDelete` | src/mbed-rtos/rtx/rt_Mutex.c:65-97 | the owner gets its priority back and moves within its list, all waiters become ready, and the most urgent task runs |
| `RtxKernel.Kernel.MbxSend` | src/mbed-rtos/rtx/rt_Mailbox.c:70-118 | hands the message to a waiting receiver, stores it at the write index, refuses, or leaves it with the blocked caller; the state field tells who waits |
| `RtxKernel.Kernel.MbxWait` | src/mbed-rtos/rtx/rt_Mailbox.c:123-174 | returns the message at the read index and refills the ring from the first blocked sender, or refuses, or blocks the caller as a receiver |
| `RtxKernel.Kernel.ChkRobin` | src/mbed-rtos/rtx/rt_Robin.c:64-79 | starts a slice for a new head of the ready list and rotates the list exactly when the slice is over |
| `RtxKernel.Kernel.Systick` | src/mbed-rtos/rtx/rt_System.c:257-281 | the running task joins the ready list, the slice is checked, the clock wraps at 32 bits, time-outs are handled and the next task is chosen |
| `RtxKernel.Kernel.PopReq` | src/mbed-rtos/rtx/rt_System.c:203-234 | all requests are handled in queue order with the running task on the ready list, then one task is chosen |
| `RtxKernel.Kernel.InitObject` | src/mbed-rtos/rtx/rt_Semaphore.c:51-58 | an unused control block becomes a semaphore, a mutex or a mailbox with at least one entry |
| `RtxKernel.Kernel.TaskCall` | src/mbed-rtos/rtx/rt_Task.c:163-257 | pass, priority, deletion, creation and delay calls with their results |
| `RtxKernel.Kernel.Enter` | src/mbed-rtos/rtx/rt_System.c:203-281 | one kernel entry on the pointer structures is one abstract step, and the invariant holds again |
| `RtxKernel.Kernel.Execute` | src/mbed-rtos/rtx/rt_System.c:203-281 | any run on the pointer structures ends where the abstract run ends, with the invariant |
| `TimerQueue.PutExact` | src/mbed-rtos/rtx/rt_CMSIS.c:817-838 | an inserted timer has exactly its ticks and nobody else's change |
| `TimerQueue.DropExact` | src/mbed-rtos/rtx/rt_CMSIS.c:841-862 | removal changes nobody else's ticks |
| `TimerQueue.TickExact` | src/mbed-rtos/rtx/rt_CMSIS.c:1003-1021 | a tick posts exactly the timers with one tick left, once each; periodic ones get icnt ticks, all others one less, and none is left at zero |
| `UserTimers.TimerList.Insert` | src/mbed-rtos/rtx/rt_CMSIS.c:817-838 | in place: the linked tcnt fields represent the queue with the timer inserted |
| `UserTimers.TimerList.Remove` | src/mbed-rtos/rtx/rt_CMSIS.c:841-862 | in place: reports whether the timer ran and takes it out of the queue |
| `UserTimers.TimerList.Create` | src/mbed-rtos/rtx/rt_CMSIS.c:875-910 | a fresh control block becomes a stopped timer |
| `UserTimers.TimerList.Start` | src/mbed-rtos/rtx/rt_CMSIS.c:913-940 | the timer runs with the given ticks; the period field changes only for a timer that did not run |
| `UserTimers.TimerList.Stop` | src/mbed-rtos/rtx/rt_CMSIS.c:943-958 | a running timer leaves the queue and is stopped |
| `UserTimers.TimerList.Delete` | src/mbed-rtos/rtx/rt_CMSIS.c:961-980 | the timer leaves the queue and becomes invalid |
| `UserTimers.TimerList.SysTimerTick` | src/mbed-rtos/rtx/rt_CMSIS.c:1003-1021 | in place: the list walk posts and re-inserts exactly as TimerQueue.Tick says, and terminates; one-shot timers stop |
| `TickCount.TicksCover` | src/mbed-rtos/rtx/rt_CMSIS.c:400-410 | the result is the smallest tick count covering the time, capped at 0xfffe; 0xffff only for waiting forever; if the sum that is divided fits 32 bits |
| `TickCount.CoversExactly` | src/mbed-rtos/rtx/rt_CMSIS.c:400-410 | a result below the cap covers the time if and only if that sum fits 32 bits |
| `TickCount.LongTicksWrap` | src/mbed-rtos/rtx/rt_CMSIS.c:400-410 | a concrete time and tick length whose sum wraps, and whose result is no tick |
| `IsrQueue.SlotsDiffer` | src/mbed-rtos/rtx/rt_HAL_CM.h:199-222 | reservations less than size apart have different slots |
| `IsrQueue.StepKeeps` | src/mbed-rtos/rtx/rt_HAL_CM.h:199-222 | every access of every nested handler and of PendSV keeps the queue invariant |
| `IsrQueue.QueueIsFifo` | src/mbed-rtos/rtx/rt_List.c:302-314 | for every nesting and interleaving: count never exceeds size, fillers have distinct slots, PendSV reads only filled ones, and requests are handled once each in reservation order |
| `HeapBlocks.AllocSound` | src/EthernetInterface/lwip/core/mem.c:505-631 | allocation keeps the blocks tiling the heap, of minimum size, with no two free neighbours |
| `HeapBlocks.ReleaseSound` | src/EthernetInterface/lwip/core/mem.c:247-368 | release joins both free neighbours and keeps the heap sound |
| `HeapBlocks.TrimSound` | src/EthernetInterface/lwip/core/mem.c:380-494 | trimming keeps the heap sound |
| `HeapBlocks.AllocLive` | src/EthernetInterface/lwip/core/mem.c:505-631 | allocation leaves every used block and adds one of at least the asked size from a free one |
| `HeapBlocks.ReleaseLive` | src/EthernetInterface/lwip/core/mem.c:322-368 | release takes exactly that block out of use |
| `HeapBlocks.AllFree` | src/EthernetInterface/lwip/core/mem.c:247-280 | a sound heap with nothing in use is one free block |
| `HeapBlocks.LiveDisjoint` | src/EthernetInterface/lwip/core/mem.c:505-631 | no two used blocks overlap and each lies inside the heap |
| `HeapMemory.Heap.constructor` | src/EthernetInterface/lwip/core/mem.c:285-314 | the initial headers represent one free block and the end marker |
| `HeapMemory.Heap.PlugHoles` | src/EthernetInterface/lwip/core/mem.c:247-280 | in place: the headers represent the heap with the freed block joined to its free neighbours |
| `HeapMemory.Heap.Free` | src/EthernetInterface/lwip/core/mem.c:322-368 | in place: next, prev, used and lfree represent the heap after the release |
| `HeapMemory.Heap.Trim` | src/EthernetInterface/lwip/core/mem.c:380-494 | in place: the headers represent the heap with the block trimmed to fewer than ALIGNMENT bytes more than it needs; a request to grow returns NULL and changes nothing if and only if its aligned size fits mem_size_t |
| `HeapMemory.Heap.Malloc` | src/EthernetInterface/lwip/core/mem.c:505-631 | in place: returns NULL if and only if the size is 0 or no free block has max(size, 12) bytes of data, and 12 stands for the last three sizes; else the lowest block that has, cut to fewer than ALIGNMENT bytes more than that unless the rest cannot be a block; the headers represent the new heap |
| `HeapMemory.HeadersSpareData` | src/EthernetInterface/lwip/core/mem.c:247-631 | stores at block starts and in the end marker never hit another block's data |
| `HeapMemory.NothingFits` | src/EthernetInterface/lwip/core/mem.c:531-533 | where the scan stops the rest of the heap is too short for the request |
| `HeapRuns.RunSound` | src/EthernetInterface/lwip/core/mem.c:247-631 | over every run the heap stays sound; with everything freed, in any order, one block is left |
| `HeapRuns.StepKeepsOthers` | src/EthernetInterface/lwip/core/mem.c:247-631 | a call leaves all used blocks but its own as they are |
| `HeapRuns.MallocHonours` | src/EthernetInterface/lwip/core/mem.c:513-524 | the result is aligned and in range, and holds the request if and only if the aligned size fits mem_size_t |
| `HeapRuns.HugeRequestShrinks` | src/EthernetInterface/lwip/core/mem.c:513-524 | a concrete request of 65533 bytes that gets 12 |
| `HeapRuns.TrimHonours` | src/EthernetInterface/lwip/core/mem.c:374-414 | a request to grow a block is refused with the block untouched if and only if its aligned size fits mem_size_t, that is up to 65532 bytes |
| `HeapRuns.HugeTrimShrinks` | src/EthernetInterface/lwip/core/mem.c:391-471 | a concrete request to grow a block of 100 bytes to 65533 that shrinks it to 12 |
| `HeapRuns.MallocDisjoint` | src/EthernetInterface/lwip/core/mem.c:505-631 | what is handed out overlaps no used block |
| `HeapCalls.Call` | src/EthernetInterface/lwip/core/mem.c:309-631 | in place: every call changes the blocks as on values, and writes no header field inside the data that any block in use is to keep, its own included |
| `HeapCalls.Execute` | src/EthernetInterface/lwip/core/mem.c:309-631 | in place: any run of calls ends with the blocks of the run on values |
| `SelectProtocol.VisitCovers` | src/EthernetInterface/lwip/api/sockets.c:1273-1346 | a walk finds every waiting thread from its position on |
| `SelectProtocol.ResumeKeeps` | src/EthernetInterface/lwip/api/sockets.c:1340-1344 | a walk that goes on, or restarts after the list has changed, loses nobody |
| `SelectProtocol.AdvanceKept` | src/EthernetInterface/lwip/api/sockets.c:1123-1168 | a thread starts to wait for a socket only when it has just seen no event there |
| `SelectProtocol.StepKeeps` | src/EthernetInterface/lwip/api/sockets.c:1074-1347 | every step of every thread and callback keeps the invariant, counters and list included |
| `SelectProtocol.NoLostWakeUps` | src/EthernetInterface/lwip/api/sockets.c:1123-1168 | in every interleaving a sleeping unsignalled thread with a pending wanted event, as the socket's fields tell it, will still be reached by a callback's walk; SelectHistory.EventsWake has it for the callbacks themselves |
| `TestAccessPort.HighResets` | src/jtag.cpp:380-387 | from any of the 16 states five or more clocks with TMS high reach Test-Logic-Reset |
| `TestAccessPort.LeaveShiftTicks` | src/jtag.cpp:351-378 | the leave sequence shifts once more and goes through Update to Run-Test/Idle |
| `JtagDriver.Jtag.constructor` | src/jtag.cpp:508-518 | from any chip state the driver starts in Run-Test/Idle with IDCODE selected |
| `JtagDriver.Jtag.Reset` | src/jtag.cpp:380-387 | the note r matches Test-Logic-Reset |
| `JtagDriver.Jtag.SetState` | src/jtag.cpp:323-348 | the note matches Shift-DR, Shift-IR or Test-Logic-Reset |
| `JtagDriver.Jtag.LeaveState` | src/jtag.cpp:351-378 | back to Run-Test/Idle; the bit still at TDI is shifted by the exit clock |
| `JtagDriver.Jtag.ShiftBits` | src/jtag.cpp:402-423 | returns the captured bits and, though TDI lags a clock, queues exactly the sent bits, in any split |
| `JtagDriver.Jtag.SetIR` | src/jtag.cpp:310-320 | the instruction register holds exactly the wanted instruction |
| `JtagDriver.Jtag.AwaitOk` | src/jtag.cpp:425-448 | any finite number of WAIT answers is retried without effect on the port |
| `JtagDriver.Jtag.ShiftData` | src/jtag.cpp:425-452 | exactly one transaction is carried out, and the result of the one before is returned |
| `JtagDriver.Jtag.RdBuff` | src/jtag.cpp:187-193 | returns the last result; without an instruction change the access goes to what the instruction register selects |
| `JtagDriver.Jtag.ReadAPACC` | src/jtag.cpp:207-218 | posts a read and returns the result of the access before |
| `JtagDriver.Jtag.ReadThisAPACC` | src/jtag.cpp:207-218 | returns the register itself by way of RDBUFF |
| `JtagDriver.Jtag.WriteAPACC` | src/jtag.cpp:222-228 | carries out exactly that write |
| `JtagDriver.Jtag.WriteBanksel` | src/jtag.cpp:238-244 | selects exactly that bank |
| `JtagDriver.Jtag.ReadID` | src/jtag.cpp:389-397 | returns the identification code |
| `JtagDriver.Jtag.MemRead` | src/jtag.cpp:15-57 | for any size and any WAIT answers, every word of the array is the memory word at its address, despite posted reads; the mismatch count is exact |
| `JtagDriver.Jtag.MemWrite` | src/jtag.cpp:59-84 | exactly the words at the addresses of the block are written |
| `JtagDriver.Jtag.ReadMemory` | src/jtag.cpp:86-92 | returns the word at the address |
| `JtagDriver.Jtag.WriteMemory` | src/jtag.cpp:94-101 | writes the word at the address and nothing else |
| `JtagDriver.AddressesAreLinear` | src/jtag.cpp:15-84 | word k is at base + 4 k for all k if and only if the first chunk does not cross a 4 KB boundary; an aligned base always will do |
| `JtagDriver.UnalignedWraps` | src/jtag.cpp:15-57 | a concrete transfer of two words whose second access goes back to the start of the page |
| `JtagDriver.WrittenWords` | src/jtag.cpp:59-84 | a write fills exactly the words from base on |
| `JtagDriver.WriteThenRead` | src/jtag.cpp:15-84 | writing then reading gives back the data, whatever is answered with WAIT |
| `OnesComplement.OnesSumFolds` | src/EthernetInterface/lwip-sys/arch/checksum.c:30-126 | the one's-complement sum of the byte pairs is the plain sum with all carries brought back, section 2 of RFC 1071 |
| `OnesComplement.SwappedSum` | src/EthernetInterface/lwip-sys/arch/checksum.c:30-126 | summing at an odd offset multiplies by 256, up to carries: byte order independence of RFC 1071 |
| `OnesComplement.ZeroSumIsZeroData` | src/EthernetInterface/lwip-sys/arch/checksum.c:30-126 | the sum is zero only if every byte is |
| `Thumb2.AddCarryFolds` | src/EthernetInterface/lwip-sys/arch/checksum.c:30-126 | no end-around carry is lost by 32-bit additions |
| `Thumb2.TwoFoldsSuffice` | src/EthernetInterface/lwip-sys/arch/checksum.c:107-113 | two folds bring any 32-bit sum to 16 bits |
| `Thumb2.AddWords` | src/EthernetInterface/lwip-sys/arch/checksum.c:73-86 | the word loop adds exactly the bytes it passes, up to carries |
| `Thumb2.FoldAndSwap` | src/EthernetInterface/lwip-sys/arch/checksum.c:107-120 | the folds and the odd-address swap restore byte order |
| `Thumb2.Checksum` | src/EthernetInterface/lwip-sys/arch/checksum.c:30-126 | for every buffer, length and start alignment the result is the 16-bit one's-complement sum of the bytes |
| `NetconnProtocol.StepKeeps` | src/EthernetInterface/lwip/api/api_msg.c:1193-1359 | for every interleaving and any number of callers, up to a first early return: what tcp_write has taken is the concatenation of prefixes of the buffers, and a request is acknowledged once, with ERR_OK exactly when all of it was taken |
| `NetconnProtocol.RunSound` | src/EthernetInterface/lwip/api/api_msg.c:276-404 | the same after every run, which ends with a first early return if there is one |
| `NetconnProtocol.AcknowledgedOnce` | src/EthernetInterface/lwip/api/api_msg.c:276-404 | up to a first early return: once acknowledged, a request is never acknowledged again and nothing more of it is taken |
| `NetconnProtocol.WireGrows` | src/EthernetInterface/lwip/api/api_msg.c:1193-1303 | up to a first early return: bytes taken are never taken back |
| `NetconnProtocol.AcknowledgedWhen` | src/EthernetInterface/lwip/api/api_msg.c:1193-1303 | a callback acknowledges the request if and only if the last byte is taken, tcp_write fails with anything but ERR_MEM, or the call must not block and would have to |
| `NetconnProtocol.ErrorAcknowledges` | src/EthernetInterface/lwip/api/api_msg.c:346-404 | a connection error acknowledges the request with that error, and no callback follows |
| `NetconnProtocol.CallerReturns` | src/EthernetInterface/lwip/api/api_msg.c:1293-1303 | a single caller can return exactly when its request is over |
| `NetconnProtocol.EarlyReturn` | src/EthernetInterface/lwip/api/tcpip.c:299-319 | a caller can return before its request is over if and only if that request is in progress or still in the mailbox of the tcpip thread, and an acknowledgement lies untaken |
| `NetconnProtocol.CrossingIsHazard` | src/EthernetInterface/lwip/api/tcpip.c:299-319 | without a further write an early return can come about if and only if two calls have not returned and one of them is not over |
| `NetconnProtocol.EarlyExactly` | src/EthernetInterface/lwip/api/tcpip.c:299-319 | at no point of a run can a caller return early, then or by what is under way, if and only if every write is called only after the earlier ones have returned; the netconn is then never broken |
| `NetconnProtocol.QuietStart` | src/EthernetInterface/lwip/api/tcpip.c:299-319 | a netconn on which every call has returned is a start for that |
| `NetconnProtocol.RunAlone` | src/EthernetInterface/lwip/api/api_msg.c:1193-1359 | in every run of a single caller each return finds the caller's own result |
| `NetconnProtocol.CallersCross` | src/EthernetInterface/lwip/api/api_msg.c:1312-1359 | a concrete run of two callers in which one can return on the other's acknowledgement, and breaks the netconn |
| `NetconnProtocol.QueuedCallersCross` | src/EthernetInterface/lwip/api/tcpip.c:299-319 | a concrete run of two writes that are each done at once, in which the second caller can return while its message is in the mailbox |
| `NetconnProtocol.WriteGetsThrough` | src/EthernetInterface/lwip/api/api_msg.c:312-336 | a blocking write ends with ERR_OK after at most as many callbacks with room as bytes remain |
| `NetconnApi.Netconn.DoWritemore` | src/EthernetInterface/lwip/api/api_msg.c:1193-1303 | in place: the next bytes are offered, and offset, state, current message and semaphore change as StepKeeps and AcknowledgedWhen are proved for |
| `NetconnApi.Netconn.Post` | src/EthernetInterface/lwip/api/api_lib.c:588-613 | in place: a write puts its request in the mailbox of the tcpip thread; an empty one does nothing |
| `NetconnApi.Netconn.DoWrite` | src/EthernetInterface/lwip/api/api_msg.c:1312-1359 | in place: the oldest request in the mailbox is refused with the last fatal error, with ERR_INPROGRESS or with ERR_CONN and acknowledged at once, or started from offset 0 whatever offset was left over |
| `NetconnApi.Netconn.SentTcp` | src/EthernetInterface/lwip/api/api_msg.c:312-336 | in place: continues the write in progress, if there is one, and keeps the invariant |
| `NetconnApi.Netconn.PollTcp` | src/EthernetInterface/lwip/api/api_msg.c:276-304 | in place: continues the write in progress, if there is one, and keeps the invariant |
| `NetconnApi.Netconn.ErrTcp` | src/EthernetInterface/lwip/api/api_msg.c:346-404 | in place: the connection is gone, the last error is kept, and a write in progress is acknowledged with it |
| `NetconnApi.Netconn.FinishCall` | src/EthernetInterface/lwip/api/api_lib.c:588-613 | in place: the caller takes its result; one that returns early, its request in progress or not met yet, has none and leaves a pointer to a request that is gone |
| `DnsProtocol.SlotIsFree` | src/EthernetInterface/lwip/core/dns.c:866-895 | a new query never takes the entry of a pending one |
| `DnsProtocol.RefusedWhen` | src/EthernetInterface/lwip/core/dns.c:866-895 | a query is refused if and only if no entry is unused, no done entry looks older than the next sequence number, and the first entry is not done |
| `DnsProtocol.RefusedWithRoom` | src/EthernetInterface/lwip/core/dns.c:866-895 | a concrete consistent table that refuses a query although its last entry is done |
| `DnsProtocol.StepKeeps` | src/EthernetInterface/lwip/core/dns.c:635-849 | every step keeps the table consistent: one entry per pending query, callbacks once, packets only to servers that are set |
| `DnsProtocol.RunCallsOnce` | src/EthernetInterface/lwip/core/dns.c:635-849 | in every run a query with a callback is called back once if it is no longer pending and not before |
| `DnsProtocol.CheckCounts` | src/EthernetInterface/lwip/core/dns.c:652-686 | a tick brings a query exactly one tick nearer to its end, also when it turns to another server |
| `DnsProtocol.PendingEnds` | src/EthernetInterface/lwip/core/dns.c:635-725 | a pending query is over after its measure of ticks, whatever else happens |
| `DnsProtocol.EveryQueryCalledBack` | src/EthernetInterface/lwip/core/dns.c:635-725 | after (1 + R(R-1)/2) times DNS_MAX_SERVERS ticks every accepted query with a callback has been called back exactly once |
| `DnsProtocol.GivenUpExactly` | src/EthernetInterface/lwip/core/dns.c:652-686 | without an answer the query is pending if and only if fewer ticks than its measure have passed |
| `DnsProtocol.QueryTakes` | src/EthernetInterface/lwip/core/dns.c:859-914 | a new query has a full round of ticks for each server that is set |
| `DnsProtocol.CallbacksHaveCauses` | src/EthernetInterface/lwip/core/dns.c:732-849 | a callback reports an address only if a packet for that entry brought it, and NULL only for a failed answer or the end of the last try |
| `DnsProtocol.CachedExactly` | src/EthernetInterface/lwip/core/dns.c:688-849 | the address that a packet brings for a pending query is kept with its name for exactly as many ticks as the packet says, at most DNS_MAX_TTL, and 2^32 for a time to live of 0, as long as no new query takes the entry |
| `DnsClient.Dns.constructor` | src/EthernetInterface/lwip/core/dns.c:231-264 | every entry is unused, server 0 is the given one and the other is not set, and the invariant holds |
| `DnsClient.Dns.CheckEntry` | src/EthernetInterface/lwip/core/dns.c:635-712 | in place: a new entry is asked for, a running timer counts down, the next try or the next server is taken, the end is reported with NULL, a cached answer ages; no other entry changes (DnsSchedule.QuerySends has the packets) |
| `DnsClient.Dns.CheckEntries` | src/EthernetInterface/lwip/core/dns.c:717-725 | in place: every entry is checked once, in order, and the invariant holds again |
| `DnsClient.Dns.Recv` | src/EthernetInterface/lwip/core/dns.c:732-849 | in place: only an entry that is asking takes the answer; its address is reported and kept for at most DNS_MAX_TTL, or the failure is reported and the entry freed |
| `DnsClient.Dns.FindSlot` | src/EthernetInterface/lwip/core/dns.c:866-895 | the scan finds the entry that Slot says |
| `DnsClient.Dns.Enqueue` | src/EthernetInterface/lwip/core/dns.c:859-914 | in place: the query gets the entry that the scan finds and its first packet goes out, or it is refused and nothing changes |
| `DnsClient.Dns.SetServer` | src/EthernetInterface/lwip/core/dns.c:272-279 | in place: a valid address is stored, anything else changes nothing |
| `RtxTimes.CallWaits` | src/mbed-rtos/rtx/rt_Task.c:144-158 | a call that has to wait - a delay, or a wait for a semaphore, a mutex, event flags, a message or room for one - leaves its caller waiting in the state of the call, on the list of its object, with exactly the time-out of the call, and 0xffff sets none; every other entry of the delay list stays |
| `RtxTimes.TickTask` | src/mbed-rtos/rtx/rt_List.c:210-244 | a tick takes one tick from the time-out of every waiting task, and makes exactly those able to run that had one left |
| `RtxTimes.TickWaitLists` | src/mbed-rtos/rtx/rt_List.c:210-244 | a tick takes exactly the tasks with one tick left off the list of an object; the others keep their order |
| `RtxTimes.CallOnward` | src/mbed-rtos/rtx/rt_Task.c:144-158 | a call other than a tick leaves the state and the time-out of a waiting task alone, or makes it able to run, or deletes it |
| `RtxTimes.CallStartsWait` | src/mbed-rtos/rtx/rt_Task.c:144-158 | a call that has to wait starts a wait of as many ticks as it was given |
| `RtxTimes.WaitLasts` | src/mbed-rtos/rtx/rt_List.c:210-244 | over every run in which nothing but the clock can end it, a wait goes on until its last tick, with the rest of its ticks left, and ends with that tick |
| `RtxTimes.WaitForEver` | src/mbed-rtos/rtx/rt_Task.c:150-153 | over every such run a wait without a time-out goes on |
| `EventBits.HasAllBits` | src/mbed-rtos/rtx/rt_Event.c:61-66 | the test for an AND wait holds if and only if each of the 16 wanted flags is set |
| `EventBits.HasAnyBits` | src/mbed-rtos/rtx/rt_Event.c:68-74 | the test for an OR wait holds if and only if one of the wanted flags is set |
| `EventBits.FlagBits` | src/mbed-rtos/rtx/rt_Event.c:85-118 | setting, clearing and intersecting flag words, flag by flag |
| `RtxEvents.WaitTakesFlags` | src/mbed-rtos/rtx/rt_Event.c:51-80 | a wait for flags returns OS_R_EVT if and only if all of them, or for an OR wait one of them, are set, and then exactly the wanted ones are cleared; otherwise the flags stay, and the caller waits for the wanted ones unless its time-out is 0 |
| `RtxEvents.SetEndsWait` | src/mbed-rtos/rtx/rt_Event.c:85-118 | setting flags adds exactly these; the task goes on waiting if and only if one of its wanted flags, for an OR wait each of them, is still missing; otherwise it can run, its time-out is gone, it gets the flags that ended its wait and the wanted ones are cleared; from the queue of an interrupt handler it is the same |
| `RtxEvents.ClearTakesFlags` | src/mbed-rtos/rtx/rt_Event.c:123-132 | clearing takes exactly these flags from an active task and changes nothing else |
| `RtxEffects.PassYields` | src/mbed-rtos/rtx/rt_Task.c:163-173 | the running task gives way to the next ready task if and only if that has its priority, and goes behind the others of that priority |
| `RtxEffects.CreateCompetes` | src/mbed-rtos/rtx/rt_CMSIS.c:577-612 | a new task has the given priority and no event flags, and takes its place by priority among the tasks that can run; nothing changes for the others |
| `RtxEffects.EndsItself` | src/mbed-rtos/rtx/rt_Task.c:229-240 | a task that ends itself makes way for the ready tasks |
| `RtxEffects.EndsOther` | src/mbed-rtos/rtx/rt_Task.c:241-257 | another task that is ended leaves the list it is on and the delay list, and nobody else is touched; one that is not active gives OS_R_NOK |
| `RtxEffects.OwnPriority` | src/mbed-rtos/rtx/rt_Task.c:189-201 | a caller that changes its own priority gives way if and only if a ready task is more urgent now, and then goes behind its equals |
| `RtxEffects.OthersPriority` | src/mbed-rtos/rtx/rt_Task.c:202-221 | another task moves to its new place in the list that it is on; after a change in the ready list its first task competes with the running one, behind its equals if it goes back |
| `RtxEffects.NoPriority` | src/mbed-rtos/rtx/rt_Task.c:202-208 | a task that is not active has no priority to change |
| `RtxEffects.ReleaseWakes` | src/mbed-rtos/rtx/rt_Semaphore.c:94-115 | a release wakes the first waiter, with result 1 and no time-out left, and that takes its place by priority among the tasks that can run; without waiters there is one token more, modulo 2^16 |
| `RtxEffects.WaitTakesToken` | src/mbed-rtos/rtx/rt_Semaphore.c:120-135 | a wait takes a token if there is one, and returns OS_R_TMO at once if there is none and its time-out is 0 |
| `RtxEffects.SemaphoreDeleted` | src/mbed-rtos/rtx/rt_Semaphore.c:64-88 | deletion wakes every waiter, with result 0 and no time-out, leaves everybody else alone and the control block without a type |
| `RtxGrants.LockGrants` | src/mbed-rtos/rtx/rt_Mutex.c:157-174 | a free mutex becomes the caller's, with its present priority saved; its owner nests; with a time-out of 0 anybody else is refused |
| `RtxGrants.LockRaises` | src/mbed-rtos/rtx/rt_Mutex.c:174-191 | a caller that waits raises the owner to its priority if and only if the saved one is lower, and joins the waiters |
| `RtxGrants.ReleaseCounts` | src/mbed-rtos/rtx/rt_Mutex.c:103-116 | only the owner can release, and any release but the last takes one level off and does nothing else |
| `RtxGrants.LastReleaseFrees` | src/mbed-rtos/rtx/rt_Mutex.c:117-152 | the last release without waiters frees the mutex and gives the caller its saved priority back, with which it gives way if and only if a ready task is more urgent |
| `RtxGrants.LastReleaseHands` | src/mbed-rtos/rtx/rt_Mutex.c:117-152 | the last release with waiters gives the caller its saved priority back and the mutex to the first waiter, whose own priority is saved; caller and waiter take their places by priority |
| `RtxGrants.LockThenRelease` | src/mbed-rtos/rtx/rt_Mutex.c:103-191 | locking a free mutex and releasing it leaves priorities, lists and states as they were |
| `RtxGrants.MutexDeleted` | src/mbed-rtos/rtx/rt_Mutex.c:65-97 | deletion gives the owner its saved priority back and wakes every waiter with result 0 |
| `RtxGrants.SendWakes` | src/mbed-rtos/rtx/rt_Mailbox.c:76-88 | a message for a waiting receiver becomes the result of the first of them, which takes its place by priority |
| `RtxGrants.SendStoresOrFails` | src/mbed-rtos/rtx/rt_Mailbox.c:89-118 | without a waiting receiver a message is stored if there is room, and refused with OS_R_TMO if there is none and the time-out is 0 |
| `RtxGrants.ReceiveGets` | src/mbed-rtos/rtx/rt_Mailbox.c:123-160 | a receive gets a message if there is one, and wakes the first blocked sender with result 0 into the room; from an empty mailbox it returns OS_R_TMO if its time-out is 0 |
| `RtxGrants.WaiterMakesWay` | src/mbed-rtos/rtx/rt_Task.c:144-158 | a caller that has to wait makes way for the ready tasks in their order, and queues by priority on its object alone |
| `RtxGrants.EventCompetes` | src/mbed-rtos/rtx/rt_Event.c:104-116 | a task whose wait for flags ends takes its place by priority among the tasks that can run |
| `RtxGrants.NewObjects` | src/mbed-rtos/rtx/rt_Semaphore.c:51-59 | a new semaphore has the given tokens, a new mutex is free, a new mailbox is empty and has the given room |
| `RtxGrants.ClockTicks` | src/mbed-rtos/rtx/rt_System.c:257-281 | a tick advances the 32-bit clock by one, and no other call does |
| `IsrProgress.HandlerQueues` | src/mbed-rtos/rtx/rt_List.c:302-316 | a handler that is not interrupted puts its request into its slot of a queue that is not full, behind all others |
| `IsrProgress.FullTurnsAway` | src/mbed-rtos/rtx/rt_List.c:302-316 | a handler that is not interrupted turns its request away if the queue is full, and changes nothing |
| `IsrProgress.TurnedAway` | src/mbed-rtos/rtx/rt_HAL_CM.h:199-217 | in every state a handler turns its request away if and only if it finds the queue full |
| `IsrProgress.PassEmpties` | src/mbed-rtos/rtx/rt_System.c:203-234 | a pass of PendSV that is not interrupted handles every request in the queue and leaves it empty |
| `HeapBlocks.AllocExactly` | src/EthernetInterface/lwip/core/mem.c:507-580 | the free block that is found is the lowest with the bytes that the request needs - the size asked for, but at least 12, and 12 for the last three sizes - and what is made of it is what HandedOut says |
| `HeapRuns.MallocExactly` | src/EthernetInterface/lwip/core/mem.c:507-580 | an allocation fails if and only if no free block has max(size, 12) bytes of data, and 12 stands for the last three sizes; otherwise it takes the lowest that has: the caller gets fewer than ALIGNMENT bytes more than that and the rest is a free block, or the whole block if the rest cannot hold a header and 12 bytes; every other block stays |
| `HeapRuns.TrimsExactly` | src/EthernetInterface/lwip/core/mem.c:380-480 | trimming is refused if and only if the block has fewer than max(size, 12) bytes, with the same exception; otherwise it keeps fewer than ALIGNMENT bytes more than that, and the rest joins the free block behind it or is one, unless it cannot hold a header and 12 bytes and the block behind is in use |
| `SelectHistory.SocketHistory` | src/EthernetInterface/lwip/api/sockets.c:1273-1293 | over every run rcvevent is what it was plus the RCVPLUS minus the RCVMINUS callbacks for the socket, sendevent what the last SENDPLUS or SENDMINUS said, errevent whether there was an error, lastdata what the last read left; nothing else changes them |
| `SelectHistory.CallHistory` | src/EthernetInterface/lwip/api/sockets.c:1067-1120 | what a thread waits for is what it passed to its last call of lwip_select |
| `SelectHistory.PollNeverWaits` | src/EthernetInterface/lwip/api/sockets.c:1088-1094 | a call with a zero time-out never gets past its first scan |
| `SelectHistory.EventsWake` | src/EthernetInterface/lwip/api/sockets.c:1234-1341 | in every run: a thread that sleeps unsignalled in its last call, while by the callbacks of the run what it asked for has happened on a socket - more RCVPLUS than RCVMINUS, a last SENDPLUS, an error - will still be reached by a callback's walk for that socket |
| `SelectHistory.DataKeepsAwake` | src/EthernetInterface/lwip/api/sockets.c:1029-1033 | no thread goes to sleep for reading while data is left from an earlier read |
| `SelectHistory.SelectAlone` | src/EthernetInterface/lwip/api/sockets.c:1067-1166 | a call on its own returns after one scan if a socket is ready or its time-out is zero; otherwise it ends up asleep at the head of the list, with the counters of its sockets raised |
| `SelectHistory.SignalWakes` | src/EthernetInterface/lwip/api/sockets.c:1166-1168 | a sleeping call goes on when it is signalled, and only then |
| `SelectHistory.LeavesAlone` | src/EthernetInterface/lwip/api/sockets.c:1169-1200 | a call that goes on lowers its counters, takes its entry off the list and returns |
| `SelectHistory.WalkEnds` | src/EthernetInterface/lwip/api/sockets.c:1305-1341 | a walk that is not disturbed ends after the rest of the list, or after the whole of it if the list has changed before |
| `JtagDriver.Jtag.SetUp` | src/jtag.cpp:19-20 | after set-up the access port is in bank 0 and makes 32-bit accesses with TAR incremented after each |
| `NetconnOutcomes.CallbackOutcome` | src/EthernetInterface/lwip/api/api_msg.c:1186-1306 | a callback ends a write with ERR_WOULDBLOCK if and only if it may not wait and would have to, with ERR_OK if and only if its last byte is taken, and with any error of tcp_write but ERR_MEM; otherwise the write goes on, and the bytes that were offered, as many as are left, have room and fit 16 bits, are sent if tcp_write has taken them |
| `NetconnOutcomes.RefusedAtOnce` | src/EthernetInterface/lwip/api/api_msg.c:1312-1359 | a write is refused at once, with nothing sent, after a fatal error (with that error), while another is in progress (ERR_INPROGRESS) and without a connection (ERR_CONN) |
| `NetconnOutcomes.StartOutcome` | src/EthernetInterface/lwip/api/api_msg.c:1312-1359 | any other write starts with its first byte and fares like one that goes on |
| `NetconnOutcomes.ReturnRemembers` | src/EthernetInterface/lwip/api/api_lib.c:588-613 | the error that a caller takes home is remembered, unless a fatal one is |
| `NetconnOutcomes.FatalRefuses` | src/EthernetInterface/lwip/api/api_msg.c:1312-1359 | over every run without another connection error a fatal one stays, no byte goes out, and every write that is met is refused with it |
| `DnsSchedule.QuerySends` | src/EthernetInterface/lwip/core/dns.c:640-686 | as long as a query hears nothing and is pending, a packet about its entry goes out on a tick if and only if a try is due on it, to the server whose turn it is: 0, 1, 2 and 4 ticks after acceptance to the first server, 8, 9 and 11 to the second one if it is set |
| `DnsSchedule.AllTries` | src/EthernetInterface/lwip/core/dns.c:640-686 | by the end a query has asked the first server DNS_MAX_RETRIES times and the second one once less |
| `DnsSchedule.IdleSendsNothing` | src/EthernetInterface/lwip/core/dns.c:635-712 | a step sends nothing about an entry that it leaves without a pending query |
| `DnsSchedule.TakesOldest` | src/EthernetInterface/lwip/core/dns.c:866-895 | a query takes the first unused entry, or else the first of the done ones that are oldest by their sequence numbers |
| `DnsSchedule.AskFills` | src/EthernetInterface/lwip/core/dns.c:897-914 | an accepted query is asked under its name, cut to 255 characters, with its callback and the next sequence number, and no other entry changes; a refused one changes nothing |
| `DnsSchedule.ServerSets` | src/EthernetInterface/lwip/core/dns.c:272-279 | a server is set if and only if its number is below DNS_MAX_SERVERS and its address is one; nothing else changes |

## Left out

- RtxKeeps.RunKeepsInvariant: runs are of legal calls. No task terminates while it owns a mutex, because `rt_tsk_delete` leaves the ownership; a queued request names a task that is still active, or a semaphore that is still one, when it is handled, and RtxDrain.DrainExactly and RtxDrain.DeadTaskReturns say what happens if not; the runs do not go on from there; timeouts fit 16 bits.
- RtxKernel.Kernel.TaskCall: `os_active_TCB` is a set of tasks instead of a table of identifiers, since CMSIS turns every pointer into an identifier and back; running out of identifiers, stacks and `os_tsk.run` set to NULL on self-deletion are not modelled.
- RtxKernel.Kernel.MutWait: several mutexes held by one task have one saved priority each, as in the code, so no property of inheritance across several mutexes is claimed; RtxInherit.InheritsExactly is about one.
- RtxKernel.Kernel.InitObject: a mailbox without entries is not modelled: the two callers, svcMessageCreate and svcMailCreate, refuse one (rt_CMSIS.c:1599 and 1756).
- RtxMail.RunMail: mail allocation waits (state 3 of a mailbox), `isr_mbx_send` and `isr_mbx_receive` are not part of the runs.
- RtxIsr.DrainEqualsCalls: covers semaphore releases and event sets, not mailbox requests.
- `rt_suspend`, `rt_resume`, interval waits, `rt_tsk_lock` and debug hooks of the kernel.
- IsrQueue.QueueIsFifo: one processor; handlers nest like a stack, as on a Cortex-M, and do not preempt each other half-way.
- UserTimers.TimerList.SysTimerTick: a full queue to the timer thread, on which the code drops the message, is not told apart from a message that is delivered.
- HeapMemory.Heap.Malloc: the 16-bit `mem_size_t` configuration; the pool variant, statistics, the semaphore and the variant that frees from interrupt handlers are not modelled.
- SelectProtocol.NoLostWakeUps: the doubly linked list of entries is a sequence, `select_cb_ctr` and `rcvevent` are unbounded, watched sockets stay open, and a failing semaphore creation and the socket table's own allocation are not modelled.
- JtagDriver.Jtag.ShiftData: acknowledgements are OK or WAIT, for which the branch that panics is never taken; FAULT reads as OK, as in the driver's comment.
- `loadProgram`, `PowerupDAP` and `DAP_enable` of the JTAG driver, its delays and its printing.
- NetconnApi.Netconn.DoWritemore: closing and connecting, UDP and RAW netconns, the notifications to select, and core locking, which is off in this configuration, are not modelled.
- RtxPending.PopAny: a block that looks like a waiting task is not a task of the pointer structures, so that case is on values only, where the block joins the ready list by the priority field at its address; the stores to its delay links are not modelled.
- NetconnProtocol.Do: the mailbox of the tcpip thread is never full, and the other netconn calls that wait on op_completed are not modelled.
- NetconnProtocol.RunSound: what the code does with the memory of a request whose caller has returned early is not modelled; runs end there.
- DnsClient.Dns.Recv: the parsing of packets is an input with three outcomes; callbacks do not call the resolver; the cache look-up of `dns_gethostbyname` and the local host list are not modelled.
- dhcp, ARP, the TCP machine itself, memory pools, the Wifly driver, socket wrappers and application code: they would add glue or easy members only.
