# A verified model of fasco

fasco is a stackful coroutine library. The ordinary coroutines of a thread all run on one shared stack
buffer; when another coroutine claims the buffer the bytes of the previous occupant are copied out, and they
are copied back when it runs again. On top of this engine sits an epoll scheduler whose hooked `read`,
`accept` and `close` suspend and resume coroutines. This project models the engine, the context switch and
the scheduler, and proves what they are for.

`dafny verify dfyconfig.toml` checks everything.

## How the model is built

| file | what it holds |
|---|---|
| `PrivateStacks.dfy` | the specification of the engine: every coroutine has a stack of its own; no flags, sinks or copies |
| `McoEngine.dfy` | the engine as functions on states, branch by branch |
| `EngineInvariant.dfy`, `Refinement.dfy` | its invariant, and that it refines the specification |
| `Evictions.dfy`, `Copies.dfy` | when bytes are copied out of the shared buffer and back, and how the copies add up |
| `ResumeExactness.dfy`, `Finality.dfy`, `Bracketing.dfy`, `Marks.dfy` | further properties of runs of the engine |
| `ThreadIsolation.dfy`, `ForeignFrees.dfy` | the engines of several threads side by side |
| `McoRoutine.dfy` | the engine as classes that update coroutine objects, call stack and the `array` buffer in place; every method is proved to act as a function of `McoEngine`, mostly the one of its name |
| `Mcontext.dfy` | `mco_swap` and the first frame on a machine of registers and memory (x86_64) |
| `Events.dfy`, `Scheduler.dfy` | event records; the scheduler of one thread as functions on its state |
| `SchedulerInvariant.dfy`, `SchedulerRuns.dfy`, `Wakeups.dfy`, `Owners.dfy`, `Lifetimes.dfy`, `ClosedDescriptors.dfy` | what every happening on the thread keeps, and what follows |
| `Continuations.dfy` | the engine's classes behind the interface of private stacks |
| `EventLoop.dfy` | event objects, fd map and event loop as classes that update their tables in place |
| `LoopThread.dfy` | hooks and loop over an `EventLoop` and the engine with its one shared buffer; every method is proved to act as the function of `Scheduler` it implements |
| `EventLoopPool.dfy` | the loops of a process, as class and function: who joins the row of workers, and the round robin over it |

`McoSwap` is split at `mcontext_swap`: the leaver executes `SwapOut`; a coroutine that left before goes on
with `Arrive`, a fresh one enters `CoroutineRun`. Between calls the running coroutine replaces its live bytes
by any others and leaves anything at all below its stack pointer. In the same way a hooked wait is split at
its `Yield`: the part after it is executed when the coroutine is resumed.

An address (`Id`, `Ev`) may be used again after its object is freed, and a descriptor after its real close.

## What callers owe

The specification makes explicit what no code checks:

* a resume does not name a coroutine that is suspended deeper in the call stack than the direct sink of the
  running one (`PrivateStacks.Legal`); `ResumeExactness.ResumeExact` shows that this is exactly what is needed;
* the thread's own flow (main) does not yield, and main is not freed; a coroutine that is suspended inside
  the live call stack is not freed;
* coroutines suspend only in the hooks and are resumed only by the loop or by the thread's own flow
  (`Scheduler.Possible`); the thread's own flow does not wait in a hook;
* a coroutine does not wait on a descriptor that belongs to another one, nor, once it is no longer current,
  on one of its own: `Wakeups.TripsInActivation` says exactly when the assertion in the hooks fails, and
  `Wakeups.OwnCloseTrips` is a run in which a coroutine that only uses its own descriptors fails it;
* there is at most one `Events` object per descriptor the program uses;
* nobody closes a descriptor on which a coroutine waits. `ClosedDescriptors.CloseSettles` shows that this is
  exactly what the real close depends on: if a coroutine waits, the descriptor is never really closed, and
  `ClosedDescriptors.CloseCanLeak` is a run in which its object is even put back into `events_` for good. A
  running coroutine can always close its own descriptors (`ClosedDescriptors.OwnNotAwaited`);
* a thread does not drop the last reference to a coroutine of another thread while that coroutine is the
  recorded occupant there and not running: `ForeignFrees.ForeignFreeExact` shows that exactly this leaves the other
  thread with a dangling occupant, and `ForeignFrees.ForeignFreeBreaks` is a run in which an acceptor does it.

## Where the model departs from the text of the code

* `stackMgr` of a coroutine is never assigned (`mco/McoRoutine.cpp:61-76`) though it is dereferenced at
  `mco/McoRoutine.cpp:48`; the model uses the manager of the current thread, as `mco/McoStack.cpp:61-67` does.
* The assertions `callStack_.size() == index_` (`mco/McoCallStack.h:12`, `mco/McoCallStack.h:17`) cannot
  hold, because the index is advanced before the entry is written and entries are never erased; the model
  keeps the live prefix `[0..index)` and drops them.
* The erase inside an assertion (`base/EventLoop.cpp:117`) is taken to be executed.
* `hookable` is true throughout.

## Model

| member | source | states |
|---|---|---|
| Refinement.StepRefines | mco/McoRoutine.cpp:61-205 | one act of a caller who keeps the rules keeps the engine's invariant and does to the coroutines what the machine with private stacks does |
| Refinement.RunRefines | mco/McoRoutine.cpp:78-205 | the same over every legal run: lazily stored and recovered bytes always equal those of private stacks |
| Refinement.ProgramRefines | mco/McoStack.cpp:73-106 | any program, deciding from all it ever read on its stacks, reads the same on the shared buffer as on private stacks |
| Refinement.InitRefines | mco/McoStack.cpp:44-59 | an engine that nobody used yet satisfies the invariant and stands for a machine on which only main runs |
| Refinement.ResumeRefines | mco/McoRoutine.cpp:122-154 | a legal resume is ignored, pops or pushes the call stack, according to the flags |
| Refinement.YieldRefines | mco/McoRoutine.cpp:156-177 | a yield of the running coroutine pops it, any other is ignored |
| Refinement.FinishRefines | mco/McoRoutine.cpp:17-28 | the return of a callback finishes the coroutine and gives control to its sink |
| Refinement.SwapKeepsInv | mco/McoRoutine.cpp:78-102 | McoSwap restores the whole invariant for the arriver and changes nobody's live bytes |
| Refinement.RunningIsTop | mco/McoRoutine.cpp:157-168 | what passes the guard of McoYield is on top of the call stack, and the assertion on its sink holds |
| Refinement.RunningIffTop | mco/McoRoutine.cpp:139-172 | a coroutine is running exactly when it is on top of the call stack |
| EngineInvariant.Occupancy | mco/McoRoutine.cpp:81-101 | a started unfinished coroutine is stored exactly when it is not the occupant, and then its copy is complete |
| EngineInvariant.SwapKeepsBytes | mco/McoRoutine.cpp:78-102 | across McoSwap the occupancy invariant passes from leaver to arriver and all live bytes are kept |
| EngineInvariant.RecoverRestores | mco/McoStack.cpp:95-106 | writing a complete copy back puts it at and above the stack pointer |
| EngineInvariant.SwapKeepsControl | mco/McoRoutine.cpp:78-102 | McoSwap touches no flag, sink or call-stack entry |
| ResumeExactness.ResumeExact | mco/McoRoutine.cpp:122-154 | a resume that is not ignored leaves the engine sound if and only if its target is not a deep ancestor |
| ResumeExactness.DeepResumeFails | mco/McoRoutine.cpp:132-168 | after the resume of any deep ancestor, the unwinding yields and one more act make the assertion of McoYield fail |
| ResumeExactness.RunNeverFails | mco/McoRoutine.cpp:167-168 | in legal runs the assertion never fails |
| Evictions.StepCopies | mco/McoRoutine.cpp:78-102 | what a legal act copies, read off the states before and after it: a coroutine is copied out exactly if it is unfinished and another one takes the buffer from it, and copied back exactly if it gets the buffer while its bytes are stored; nothing else changes a copy of a started coroutine, and no swap changes the buffer otherwise |
| Evictions.OccupantNotCopied | mco/McoRoutine.cpp:83-88 | while the buffer stays with its occupant, as when the occupant is resumed or returned to, no copy, no buffer byte and no entry of the history changes |
| Evictions.StoredMeansEvicted | mco/McoRoutine.cpp:83-92 | a legal act stores a coroutine if and only if it was the occupant, another one is so afterwards, and it is not finished |
| Copies.RunMoves | mco/McoRoutine.cpp:83-84 | over every legal run the recorded changes of the occupant are as many as the steps after which the buffer belongs to another coroutine, counted from the states |
| Copies.CopiesConserved | mco/McoRoutine.cpp:81-101 | in every legal run stores and recoveries alternate per coroutine, stores equal recoveries plus drops plus those still stored, and do not exceed the number of steps, counted from the states, after which the buffer belongs to another coroutine |
| Copies.Conserved | mco/McoRoutine.cpp:84-91 | the same counting law for every history of copies that is in order |
| Finality.FinalForGood | mco/McoRoutine.cpp:84-91 | after done_yield is set no later act runs the coroutine, puts it on the call stack or stores its bytes, even while it is the occupant |
| Finality.RetiredIffFinished | mco/McoRoutine.cpp:160-163 | done_yield alone implies every other sign of being finished |
| Bracketing.NestRestores | mco/McoRoutine.cpp:122-177 | every properly nested run is legal and gives back the call stack and all coroutines that took no part |
| Bracketing.NestRestoresEngine | mco/McoRoutine.cpp:122-177 | the same on the engine: call stack, running flags and live bytes |
| Bracketing.ResumeOfSinkIsYield | mco/McoRoutine.cpp:131-153 | to resume the coroutine that resumed the running one is the same transition as to yield |
| Bracketing.YieldsUnwind | mco/McoRoutine.cpp:156-177 | yields of whoever runs unwind the private machine's call stack to any of its entries and change nothing else |
| Bracketing.YieldsUnwindEngine | mco/McoRoutine.cpp:156-177 | the same on the engine: the call stack, who is running, and everyone's live bytes |
| ThreadIsolation.Step1Isolated | tools/PoolInThreads.hpp:68-77 | an act, also one that makes or frees a coroutine for another thread, is a step of the thread it is done to and nothing to the others |
| ThreadIsolation.Isolated | tools/PoolInThreads.hpp:68-77 | under any interleaving each thread's part goes through the run that is made of what is done to that thread |
| ThreadIsolation.IsolatedSound | mco/McoStack.cpp:107-116 | so a thread stays sound, and its coroutines those of private stacks, whatever others do |
| ForeignFrees.ForeignFreeExact | mco/McoRoutine.cpp:185-193 | a thread stays sound when another one frees a coroutine of its own if and only if the coroutine is running or is not the recorded occupant |
| ForeignFrees.ForeignFreeBreaks | base/TcpServer.cpp:69-72 | a run from any sound idle thread in which the thread that made its coroutine frees it too late and breaks it |
| ThreadIsolation.PoolInThreads.GetT | tools/PoolInThreads.hpp:30-39 | the item of a thread is made once and the same one is returned ever after |
| McoRoutines.McoRoutine.StoreUsedCommonStack | mco/McoStack.cpp:73-93 | the copy becomes the buffer from the stack pointer up |
| McoRoutines.McoRoutine.RecoverUsedCommonStack | mco/McoStack.cpp:95-106 | the buffer, in place, gets the copy back at the stack pointer |
| McoRoutines.McoThread.McoCreate | mco/McoRoutine.cpp:61-76 | a fresh coroutine object; no other changes |
| McoRoutines.McoThread.McoSwap | mco/McoRoutine.cpp:78-102 | the objects, the occupant and the buffer change as Swap says, for which the refinement and the law of copies are proved |
| McoRoutines.McoThread.MainMco | mco/McoRoutine.cpp:104-120 | the first call makes the thread's flow a coroutine at the bottom of the call stack; later ones change nothing |
| McoRoutines.McoThread.McoResume | mco/McoRoutine.cpp:122-154 | the whole heap of coroutines changes as the resume function says, and the invariant is kept |
| McoRoutines.McoThread.McoYield | mco/McoRoutine.cpp:156-177 | likewise for yield; its assertion is proved in place |
| McoRoutines.McoThread.CoroutineReturn | mco/McoRoutine.cpp:17-28 | likewise for the end of CoroutineRun |
| McoRoutines.McoThread.McoFree | mco/McoRoutine.cpp:178-205 | likewise for free, with the occupant cleared if it is the one freed |
| Marks.FreeMarks | mco/McoRoutine.cpp:185-204 | the free of a running coroutine sets should_close and changes nothing else of anyone; any other coroutine is gone and the rest unchanged |
| Marks.StepMarks | mco/McoRoutine.cpp:118-172 | in every legal act: in_callstack goes on to say exactly who ever ran, and nothing else sets or clears should_close |
| McoRoutines.McoThread.GetCurMco | mco/McoCallStack.h:16-22 | the top of the live prefix |
| Mcontext.McoSwap | mco/swap.S:40-84 | the leaver's registers and return address are in its regs array and execution goes on where the arriver's say |
| Mcontext.SaveContext | mco/swap.S:40-60 | the pushes fill exactly the regs array of the leaver |
| Mcontext.LoadContext | mco/swap.S:62-84 | the pops and the return load every register from the arriver's array |
| Mcontext.SwapWrites | mco/swap.S:40-84 | a swap writes nothing but the leaver's regs array and one word below the arriver's stack pointer |
| Mcontext.RoundTrip | mco/swap.S:40-84 | over any chain of swaps a suspended context goes on at its return address with its RSP, RBX, RBP and R12 to R15 |
| Mcontext.FirstEntry | mco/Mcontext.cpp:52-63 | the first swap into a made context enters the function with its argument in RDI and the alignment of section 3.2.2 of the System V AMD64 ABI, with RSP + 8 in the last 16 bytes of the stack, which fixes it, and with room below it |
| Mcontext.FirstEntryFits | mco/Mcontext.cpp:55-60 | 32 bytes is exactly the least stack size for which that holds at every base |
| Mcontext.FirstEntryInChain | mco/swap.S:62-84 | the same when other contexts swapped in between |
| Mcontext.McontextMake | mco/Mcontext.cpp:52-63 | all registers zero but the argument, entry point and stack pointer, which is 8 below the one multiple of 16 in the last 16 bytes of the stack; nothing else written |
| Mcontext.Mask16 | mco/Mcontext.cpp:56 | the mask is rounding down to a multiple of 16 |
| Mcontext.CommonSizeRounds | mco/McoStack.cpp:51-54 | the adjusted size is the next multiple of 4096 if and only if the addition does not wrap; if it does, it is 0 |
| EventRecords.ReadingHandles | base/EventLoop.cpp:143-150 | of a modified object that asks for kReadEvent a report passes eventHandleAble if and only if it has a bit besides POLLOUT: readable or urgent data, hang-up, error |
| EventRecords.WritingHandles | base/EventLoop.cpp:143-150 | of one that asks for kWriteEvent, if and only if it has a bit besides those of kReadEvent |
| EventRecords.BothHandle | base/EventLoop.cpp:143-150 | of one that asks for both, every report but the empty one, unchanged |
| EventRecords.UnmodifiedHandles | base/EventLoop.cpp:140-152 | a deleted object handles no report, and one in any state but MOD and DEL every one; neither changes it |
| EventRecords.ReadReportHandled | base/EventLoop.cpp:139-153 | so a report with a bit besides POLLOUT passes whenever reading was asked for, also of a new object |
| EventRecords.WithdrawnReportIgnored | base/EventLoop.cpp:143-150 | once nothing is asked for, exactly the reports with a bit beyond those of kReadEvent and kWriteEvent pass |
| EventRecords.HandleAbleKeeps | base/EventLoop.cpp:139-153 | it changes neither descriptor, state nor the mask asked for |
| SchedulerInvariant.HappenOk | base/SysapiHook.cpp:25-118 | whatever happens on the thread keeps the scheduler's invariant |
| SchedulerInvariant.RunOk | base/EventLoop.cpp:155-194 | so it holds in every run |
| SchedulerInvariant.StartOk | base/EventLoop.cpp:19-31 | the constructor of EventLoop establishes it |
| SchedulerInvariant.WaitOk | base/SysapiHook.cpp:31-55 | a hooked wait registers, maps and suspends soundly |
| SchedulerInvariant.DispatchOk | base/EventLoop.cpp:166-191 | so does the handling of any report, for any descriptor, stale or not |
| SchedulerInvariant.CloseRegistered | base/SysapiHook.cpp:99-118 | so does the close of a registered descriptor |
| SchedulerInvariant.UpdateMod | base/EventLoop.cpp:107-113 | a modified object ends up registered with the kernel watching its mask |
| SchedulerInvariant.UpdateDel | base/EventLoop.cpp:114-118 | a deleted one is gone from both tables |
| SchedulerRuns.HappenCalls | base/Mcosops.h:10-20 | every call the scheduler makes of the engine is legal, and which calls a happening makes: a launch creates and resumes, a handled report resumes the owner of the descriptor, a wait of a current coroutine yields it |
| SchedulerRuns.EngineServes | base/Continuation.h:18-30 | in every run of the scheduler the engine with the shared buffer stays sound and shows exactly the coroutines the scheduler sees |
| Wakeups.Armed | base/SysapiHook.cpp:31-54 | a coroutine that waits for a descriptor owns it, and its record and the kernel both ask for reading |
| Wakeups.Wakes | base/EventLoop.cpp:166-191 | a report on the descriptor with any bit besides POLLOUT resumes exactly that coroutine and makes it current |
| Wakeups.GoesOnWaiting | base/SysapiHook.cpp:38-54 | it goes on waiting if and only if the descriptor is not closed and it is not resumed |
| Wakeups.NoLostWakeup | base/SysapiHook.cpp:25-58 | over any run without a close of the descriptor, the next report with any bit besides POLLOUT resumes it |
| Wakeups.ClosedNeverWakes | base/SysapiHook.cpp:99-118 | while a coroutine waits on a descriptor that someone else closed, no report on that descriptor does anything |
| ClosedDescriptors.ClosedNeverResumes | base/EventLoop.cpp:169-188 | over any run after a close, before the descriptor is issued again, no report on it resumes anyone or, unless its object is back in events_, changes anything |
| Wakeups.ResumedIsCurrent | base/Mcosops.h:10-13 | control reaches a coroutine only from the thread's own flow, at depth one, and it is then current |
| Wakeups.LaunchRuns | base/Mcosops.h:10-13 | a coroutine that the thread's own flow makes and resumes runs, above main, and is current |
| Owners.OwnersChange | base/SysapiHook.cpp:31-55 | after whatever happens: a descriptor belongs to whom it was spawned for or who first waited on it, until it is closed, and the current coroutine is the last one resumed, until what it owns is closed |
| Wakeups.CurrentUntilOwnClose | base/SysapiHook.cpp:103-109 | while it runs it stays current until, exactly, it closes a descriptor it owns |
| Wakeups.WaitLeaves | base/SysapiHook.cpp:43-55 | a hooked wait suspends the running coroutine exactly when it is current |
| Wakeups.CurrentInActivation | base/SysapiHook.cpp:103-109 | over a whole activation: a coroutine is current until it closes a descriptor of its own, and not after |
| Wakeups.TripsInActivation | base/SysapiHook.cpp:32-33 | over a whole activation: the assertion of the hooks fails on exactly the descriptors of others and, once the coroutine closed one of its own, on all that have an owner |
| Wakeups.TripsAfterClose | base/SysapiHook.cpp:32-33 | the same for one close by a current coroutine |
| Wakeups.OwnCloseTrips | base/SysapiHook.cpp:106-109 | a run from any sound state in which a coroutine that uses only its own descriptors fails it |
| Lifetimes.SuspendedIsHeld | base/EventLoop.cpp:185-189 | a running or suspended coroutine is always held by a shared_ptr |
| Lifetimes.ReclaimFrees | mco/McoRoutine.cpp:185-188 | so McoFree never finds the coroutine running and always frees it |
| Lifetimes.BoundIsHeld | base/TcpServer.cpp:67-72 | over any run, the object that a callback holds is not destroyed before its coroutine is freed |
| Lifetimes.ClosedIsForgotten | base/EventLoop.cpp:114-118 | a descriptor that is not open has no trace in any table, so a reissued one finds no stale entry |
| Lifetimes.ClosedOncePerOpening | base/Events.cpp:190-193 | a descriptor was really closed once per opening, but for the last opening if it is still open: never twice |
| ClosedDescriptors.BackIffWakened | base/EventLoop.cpp:107-113 | over any run after a close, the object is back in events_ if and only if a coroutine that waited on the descriptor has run since |
| ClosedDescriptors.LeaksForGood | base/SysapiHook.cpp:41-42 | a closed descriptor that is waited on or back in events_ is never really closed, whatever happens |
| ClosedDescriptors.CloseSettles | base/SysapiHook.cpp:110-117 | whether the close of a registered descriptor becomes a real one: never if a coroutine waits on it, and otherwise exactly when its object is destroyed, which is possible as soon as no callback holds it |
| ClosedDescriptors.OwnNotAwaited | base/SysapiHook.cpp:104-107 | nobody waits on what the running coroutine owns |
| ClosedDescriptors.CloseCanLeak | base/SysapiHook.cpp:53-54 | a run from any sound idle state that ends with a closed descriptor in events_ for good |
| Lifetimes.RealCloseIsLast | base/SysapiHook.cpp:110-117 | a real close is of an open descriptor that has left the map, events_ and the interest set |
| Lifetimes.CloseHandsOver | base/Eventsops.h:14-22 | closing a registered descriptor leaves the real close to its one Events object |
| Lifetimes.RegistrationsAgree | base/EventLoop.cpp:95-121 | in every run no assertion of pollUpdate fails, epoll_ctl is never refused, and events_ and the kernel agree in descriptors and masks |
| Scheduler.UpdateFaults | base/EventLoop.cpp:100-118 | exactly when an assertion of pollUpdate fails or epoll_ctl refuses, for each state of the object |
| Lifetimes.WakeFdWatched | base/EventLoop.cpp:27-30 | in every run from the constructor on, the eventfd is registered and watched for kReadEvent |
| Lifetimes.WatchedIffWaited | base/SysapiHook.cpp:38-42 | once a hook waited on a descriptor the kernel watches it for reading exactly while a coroutine waits on it |
| Lifetimes.WatchedSinceWait | base/SysapiHook.cpp:38-54 | the same over any run after a hooked wait, until the descriptor is closed |
| EventLoops.Events.HandleAble | base/EventLoop.cpp:139-153 | the object and the result are as the function HandleAble says, for which ReadingHandles and its companions are proved |
| EventLoops.Events.UpdateEvents | base/Events.cpp:111-114 | the mask is replaced and the state is MOD |
| EventLoops.Events.DeleteEvent | base/Events.cpp:121-124 | the mask loses the given bits and the state is MOD |
| EventLoops.Events.DeleteEventMutable | base/Events.cpp:131-134 | the report loses the given bits and the state is MOD |
| EventLoops.McoPool.GetMcoRoutine | base/McoPool.cpp:5-11 | the coroutine mapped to a descriptor, or none |
| EventLoops.McoPool.RemoveMcoRoutine | base/McoPool.cpp:13-16 | the mapping is gone; was there one |
| EventLoops.McoPool.SetMcoRoutine | base/McoPool.cpp:18-20 | the mapping is set |
| EventLoops.EventLoop.constructor | base/EventLoop.cpp:19-31 | the tables are those of Start, and the kernel watches the eventfd, and it alone, for kReadEvent |
| EventLoops.EventLoop.PollUpdate | base/EventLoop.cpp:95-121 | events_ and the interest set change as the function PollUpdate says; its assertions are proved in place |
| EventLoops.EventLoop.UpdateEvents | base/EventLoop.cpp:54-66 | likewise, and nothing for an invalid object |
| EventLoops.EventLoop.GetEvents | base/EventLoop.cpp:84-93 | the registered object, or null |
| EventLoops.EventLoop.Serve | base/EventLoop.cpp:166-188 | a report is noted, and the coroutine found is exactly the one the function Report resumes |
| EventLoops.EventLoop.MakeCurrent | base/Mcosops.h:10-13 | the coroutine becomes current |
| EventLoops.EventLoop.Withdraw | base/SysapiHook.cpp:41-42 | what the hook does after its yield |
| EventLoops.EventLoop.HookedWait | base/SysapiHook.cpp:31-52 | mapping, registration and frame of a hooked wait, in both branches, up to its yield |
| EventLoops.EventLoop.Close | base/SysapiHook.cpp:99-118 | currency, mapping and registration go as the function HookedClose says |
| EventLoops.EventLoop.RemoveEventFromLoop | base/Eventsops.h:14-22 | the object is deleted and the loop told |
| EventLoops.EventLoop.Spawn | base/TcpServer.cpp:67-72 | the mapping is set before the registration |
| EventLoops.EventLoop.Destroy | base/Events.cpp:190-193 | the object is gone and its descriptor really closed |
| Continuations.Coroutines.Resume | base/Continuation.h:18-20 | the engine with the shared buffer does what the private machine does on a resume |
| Continuations.Coroutines.Yield | base/Continuation.h:22-24 | likewise for a yield |
| Continuations.Coroutines.Free | base/Continuation.h:26-30 | likewise for the destructor |
| LoopThreads.LoopThread.constructor | base/EventLoop.cpp:19-31 | the thread's state is Start, with the kernel watching the eventfd for kReadEvent, on a fresh engine |
| LoopThreads.LoopThread.Continue | base/Mcosops.h:10-13 | the coroutine becomes current, the engine resumes it, and its hook goes on |
| LoopThreads.LoopThread.HandleReport | base/EventLoop.cpp:166-191 | one report does what the function Report says, on the engine too; Wakes says which reports resume a waiting coroutine |
| LoopThreads.LoopThread.Loop | base/EventLoop.cpp:160-192 | all reports of one epoll_wait are handled in order, each followed by whatever happens until control is back |
| LoopThreads.LoopThread.Read | base/SysapiHook.cpp:25-58 | the whole state is that of HookedWait, with the engine's yield; the assertion of the hook is proved in place |
| LoopThreads.LoopThread.Close | base/SysapiHook.cpp:99-118 | the whole state is that of HookedClose |
| LoopThreads.LoopThread.Spawn | base/TcpServer.cpp:67-72 | a coroutine is made, mapped and registered |
| LoopThreads.LoopThread.Reclaim | base/Continuation.h:26-30 | the engine frees the coroutine that nobody holds |
| LoopThreads.LoopThread.Perform | base/SysapiHook.cpp:25-118 | any happening that is possible has, on loop and engine, the effect Happen |
| EventLoopPools.EventLoopPool.AddEventLoop | base/EventLoopPool.cpp:14-28 | a loop is accepted if it is not null and its thread has none; an accepted worker is appended to the row of workers, an accepted main loop becomes the main loop, nothing else changes, and a refused call changes nothing |
| EventLoopPools.Joined | base/EventLoopPool.cpp:14-28 | over any row of calls the workers grow by exactly the loops first offered as worker for their thread, in order, and the main loop is the last one first offered as such |
| EventLoopPools.FoundForGood | base/EventLoopPool.cpp:41-48 | and each of them is found under its thread ever after |
| EventLoopPools.EventLoopPool.GetNextLoop | base/EventLoopPool.cpp:30-39 | the position picked is in range whatever was added before |
| EventLoopPools.PicksInOrder | base/EventLoopPool.cpp:30-39 | calls in a row return the workers in their order, cyclically from the position reached so far |
| EventLoopPools.Fair | base/EventLoopPool.cpp:30-39 | in any k calls in a row each of n loops is returned k / n times or once more, and which of the two |
| EventLoopPools.NoStarvation | base/EventLoopPool.cpp:14-39 | with loops added in between, each loop is returned after at most one round and one call more per addition |

## Left out

- The record `McoStack` is modelled as part of the coroutine that alone owns it, and the saved bytes `stack_tmp` as a value that is replaced, not as a block that is freed; private stacks and main's own stack are values, as nothing copies them.
- Bytes of a frame below the address of the local `c` in `McoSwap`, overflow of a stack, failing allocation, and the mismatch of `new[]` and `delete`.
- Exceptions of a callback: `CoroutineRun` swallows them, so they look like a return.
- `should_close` is set but nothing acts on it, in the code or in the model.
- McoRoutines.McoThread.McoResume: requires that the target is not a deep ancestor, which the code does not check; ResumeExactness.ResumeExact proves that condition exact.
- Mcontext.McoSwap: memory is modelled as 8-byte words at unbounded addresses, so nothing wraps; i386 is not modelled.
- Mcontext.Mask16: proved on 64-bit vectors; the machine model uses the same rounding on integers.
- ThreadIsolation.Isolated: assumes that no thread resumes or yields a coroutine of another one, which the code does not prevent, and leaves out a free that ForeignFrees.ForeignFreeExact shows to break its owner; it says nothing about which thread's history records a copy dropped by another.
- SchedulerInvariant.HappenOk: a coroutine that waits on a descriptor of another one, or that is no longer current on one of its own, is excluded, because the hook's assertion ends the process; Wakeups.TripsInActivation says when that is.
- Coroutines that resume other coroutines under the scheduler, and waiting hooks called from the thread's own flow.
- Wakeups.Wakes: does not say that a resumed coroutine finds its descriptor readable; a report of an error, or on a second descriptor it owns, resumes it too.
- Events of one thread are all registered with its own loop: the thread id in an `Events` object and its routing are not modelled; a happening on the thread is one step. What an acceptor on another thread registers here is the happening Spawn, also taken as one step.
- Reference counting: a drop of the last reference is a happening of its own that may come at any later time.
- LoopThreads.LoopThread.Read: stands for `read` and `accept`, which differ only in the system call at the end.
- LoopThreads.LoopThread.Loop: what runs between two reports is given as any sequence of possible happenings; the loop is one epoll_wait long, and `quit` is not modelled.
- The write to the eventfd in `wakeupLoop` and the read in `HandleWake`, which do not touch any table.
- `addEvent`, `addEventMutable`, `isError`, `isClose`, `reset`, moving of `Events`, and the growth of the buffer for reports in `Epoll`.
- Sockets, addresses, logging, timestamps, threads, thread pools and mutexes: thin layers over the system.
