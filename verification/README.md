# Verified model of the RISC-V kernel

A model of a small single-core RISC-V kernel and of what it promises its threads. Five parts:

- **The memory allocator**: best fit over a doubly linked list of free runs whose headers lie in the
  free memory itself, with splitting, merging on both sides and a side table of allocation lengths.
  `FreeRuns` says what the list means, `MemoryAllocator` is the code over arrays, `AllocatorRuns`
  holds the results about whole runs of requests and about the memory of a thread.
- **The kernel**: control blocks chained by their own links in the ready queue, the semaphores'
  queues and the delta-encoded sleep queue, and the handlers of system calls, timer and console.
  The modules from `KernelSpec` to `KernelCalls` treat it as a transition system, one step a trap handler up to and
  including its context switch; a thread suspended inside a handler carries what it will do next.
  `Threads`, `Scheduling`, `RingQueue` and `Kernel` are the code over the heap, and every handler
  there performs exactly one step of the transition system; `KernelExecution` runs whole lists of
  events, from boot on, over the heap. `SemSpec` and `SleepSpec` say what a
  semaphore and a sleep queue are over a whole run.
- **The context switch**: `Machine` is the assembly over registers, control registers and memory,
  with the fields of `sstatus` as in section 4.1.1 of the RISC-V Privileged Architecture v1.12.
  `ContextSwitch` lets any number of threads trap, switch, exit and return over one hart.
- **The bounded buffer** on four semaphores, with any number of threads preempted between any two
  statements (`BoundedBuffer`, and `BufferResults` for what callers get).
- **The console functions** and the arithmetic under them (`Console`, `Utils`).

State that the kernel updates in place is a class; each method is tied to a function on values, and
the results are proved about those functions and about runs of them.

## Model

| member | source | states |
|---|---|---|
| MemoryAllocation.MemoryAllocator.PlanHeap | project/src/k_memory.cpp:5-25 | for every heap of two blocks or more, table, padding and blocks fit in the range and the block area is aligned to 64; no block is lost and there is no padding exactly when the table ends aligned, otherwise one is lost, also when the padding is 64 |
| MemoryAllocation.MemoryAllocator.constructor | project/src/k_memory.cpp:27-41 | a new allocator has an empty table and the one run of all blocks, inside the heap |
| MemoryAllocation.MemoryAllocator.Alloc | project/src/k_memory.cpp:48-100 | null exactly when no n consecutive unallocated blocks exist anywhere; otherwise the low end of the smallest run that is long enough, the lowest of several, and nothing else changes |
| MemoryAllocation.MemoryAllocator.Free | project/src/k_memory.cpp:102-155 | succeeds exactly on the start of a live allocation and releases that alone; every other address leaves list, table and headers untouched; the error codes are as given, and the second ADDRESS_IS_NOT_USED is unreachable |
| MemoryAllocation.MemoryAllocator.MergeBlocks | project/src/k_memory.cpp:157-175 | two runs become one exactly when they touch |
| FreeRuns.FitIffRun | project/src/k_memory.cpp:50-55 | enough consecutive free blocks exist anywhere exactly when a single listed run is long enough: why a null answer is never wrong |
| FreeRuns.CoalescedUnique | project/src/k_memory.cpp:118-153 | two ordered lists in which no runs touch and which cover the same blocks are the same list |
| FreeRuns.ListIsMaximalRuns | project/src/k_memory.cpp:48-175 | the list holds exactly the maximal runs of unallocated blocks |
| AllocatorRuns.Execute | project/src/k_memory.cpp:48-175 | after any requests to allocate, free, or write into an allocated block, the list is still exactly the maximal free runs, and every allocation not freed is still there |
| AllocatorRuns.AllocThenFree | project/src/k_memory.cpp:48-155 | freeing what has just been allocated restores list and table; only the result of a request for 0 blocks cannot be freed |
| AllocatorRuns.FreesCommute | project/src/k_memory.cpp:102-155 | two allocators with the same live allocations that free two of them in opposite orders end with the same list, head and table |
| AllocatorRuns.FreeAll | project/src/k_memory.cpp:102-155 | freeing every live allocation, in any order, restores the single initial run |
| AllocatorRuns.CreateThreadMemory | project/src/k_tcb.cpp:19-74 | which allocation of a creation fails first, by what fits, and what is then live |
| AllocatorRuns.FreeTcb | project/src/k_tcb.cpp:76-93 | the exit of a thread releases exactly its user stack, kernel stack, join semaphore and control block, whatever else is live |
| AllocatorRuns.RunThenExit | project/src/k_tcb.cpp:19-134 | through any requests that free none of a thread's four allocations they stay live, and its exit then releases exactly those four |
| AllocatorRuns.CreateThenExit | project/src/k_tcb.cpp:19-93 | a creation followed at once by the exit restores list and table, and so does one without memory for the user stack; one without memory for the control block loses exactly the user stack |
| AllocatorRuns.StackLost | project/src/syscall_c.cpp:27-35 | on a heap of one stack's size the first creation fails and keeps the whole heap |
| Threads.TCBList.SetFirst | project/h/list.hpp:57-64 | an element becomes the only one of an empty list; a list with elements stays as it is |
| Threads.TCBList.AddFirst | project/h/list.hpp:66-80 | the sequence of the list gains the element in front, all links consistent |
| Threads.TCBList.AddLast | project/h/list.hpp:82-96 | the sequence of the list gains the element at its end |
| Threads.TCBList.TakeFirst | project/h/list.hpp:98-118 | removes and returns the first, its links null; null and no change when empty |
| Threads.TCBList.TakeLast | project/h/list.hpp:120-140 | removes and returns the last, its links null; null and no change when empty |
| Scheduling.Scheduler.NextTcb | project/src/k_scheduler.cpp:24-26 | takes the thread that has been ready longest |
| Scheduling.Scheduler.PutTcb | project/src/k_scheduler.cpp:28-33 | a thread becomes ready behind all others; null is ignored |
| Scheduling.TCBSleepQueue.PutToSleep | project/src/k_tcb_sleep_queue.cpp:5-66 | on the map from threads to absolute deadlines: insertion behind all deadlines that are not later, with no overflow of the running total and no underflow of a difference |
| Scheduling.TCBSleepQueue.TimerTick | project/src/k_tcb_sleep_queue.cpp:68-78 | exactly the threads whose deadline is now move to the ready queue, in their order; the head delta stays at least 1 |
| SleepSpec.WakesExactlyOnTime | project/src/k_tcb_sleep_queue.cpp:5-78 | over every run, the d-th tick wakes exactly the threads whose deadline is d, in the order in which they went to sleep |
| SemSpec.SemaphoreRun | project/src/k_sem.cpp:22-77 | over every run: value = initial + signals - waits, max(0, -value) threads queue, min(waits, initial + signals) waits are granted, and queued threads are released in order of arrival |
| SemSpec.OpensRight | project/src/k_trap_handlers.cpp:114-122 | the law holds of every run from the value asked for exactly when that value is below 2^31; from there on already the first wait blocks |
| RingQueue.RingQueue.Get | project/h/queue.hpp:34-46 | takes the oldest element; the default value, and no change, when empty |
| RingQueue.RingQueue.Put | project/h/queue.hpp:48-56 | appends an element; a full ring stays as it is |
| RingQueue.RingQueue.Clear | project/h/queue.hpp:58-63 | leaves the ring empty |
| Kernel.Kernel.constructor | project/src/main.cpp:43-49 | from the static objects as their initialisers leave them, `main` initialises the console's semaphores and creates the flush thread; the heap then represents the initial state of the transition system |
| Kernel.Kernel.StartWait | project/src/k_sem.cpp:22-49 | `wait` up to its return or its context switch: the value drops by one, and the caller queues exactly when it becomes negative |
| Kernel.Kernel.Unblock | project/src/k_sem.cpp:51-64 | the first waiter, if any, becomes ready with the given flag, and nobody else changes |
| Kernel.Kernel.Signal | project/src/k_sem.cpp:66-77 | counts up and releases the thread that has waited longest, when one waits |
| Kernel.Kernel.Close | project/src/k_sem.cpp:79-83 | terminates with all waiters moved to the ready queue in order, each with the interrupted flag set |
| Kernel.Kernel.Dispatch | project/src/k_tcb.cpp:115-134 | a running thread stays ready, a terminating one is released with its join semaphore closed, and the first ready thread resumes where it was |
| Kernel.Kernel.HandleThreadCreate | project/src/k_trap_handlers.cpp:83-92 | one step: in memory not in use, a thread with its own join semaphore, ready behind all others, and nothing else comes to belong to the kernel |
| Kernel.Kernel.HandleSemOpen | project/src/k_trap_handlers.cpp:114-122 | one step: in memory not in use, a semaphore with the given value, and nothing else comes to belong to the kernel |
| Kernel.Kernel.HandleEcall | project/src/k_trap_handlers.cpp:56-169 | every other system call, over the heap, is exactly one step of the transition system and leaves the heap well formed, `k_current_context` naming the current thread's context, with no object gained |
| Kernel.Kernel.HandleTimer | project/src/k_trap_handlers.cpp:203-214 | a timer interrupt is exactly one step: sleepers wake, then the slice is checked |
| Kernel.Kernel.FillGetcBuffer | project/src/k_trap_handlers.cpp:41-54 | a character from the device is exactly one step; it is dropped when the ring is full |
| Kernel.Kernel.FlushPutcBuffer | project/src/k_trap_handlers.cpp:22-39 | the flush loop is as many flush steps as the device and the ring allow |
| KernelExecution.Execute | project/src/k_trap_handlers.cpp:22-228 | over every run the heap follows the transition system, also where the memory of ended threads and closed semaphores is used again |
| KernelExecution.BootAndExecute | project/src/main.cpp:34-63 | in every state that the kernel reaches from boot, over any list of events, all lists are well formed and apart, `k_current_context` is the current thread's, and the heap represents the state of the transition system |
| KernelRuns.StepInv | project/src/k_trap_handlers.cpp:22-228 | every step keeps the invariant: each live thread in exactly one place with the status that goes with it, waiters only on live semaphores, values counting waiters |
| KernelSteps.NextExists | project/src/k_scheduler.cpp:6-35 | `next_tcb` never returns null at a context switch, because the flush thread is always running or ready |
| KernelTheorems.BootedInv | project/src/main.cpp:43-49 | the initial state satisfies the invariant |
| KernelTheorems.ReachableStates | project/src/k_tcb.cpp:95-134 | the invariant and the console's books hold in every reachable state |
| KernelEffects.StepIsHandled | project/src/k_tcb.cpp:95-134 | a step is its handler, followed by a context switch exactly when the handler ends in one |
| KernelResults.HandlerServes | project/src/k_trap_handlers.cpp:71-168 | the current thread when its handler is done: a0 and, if it is suspended, its place and where it goes on, for every call and interrupt, read off the state before |
| KernelResults.HandlerMoves | project/src/k_trap_handlers.cpp:22-214 | for every handler, exactly who becomes ready and in which order, and which threads, semaphores and handles come and go, a new semaphore with the value asked for, a join semaphore with 0 |
| KernelResults.HandlerRecords | project/src/k_trap_handlers.cpp:22-54 | what every handler does to the input ring and to the records of the console, in terms of the event's own character |
| KernelResults.NextServes | project/src/k_tcb.cpp:95-113 | a context switch takes the first ready thread and gives it the result it was suspended for; nobody else changes |
| KernelCalls.StepMoves | project/src/k_tcb.cpp:95-134 | the same of a whole step: who runs next, who is ready behind in which order, what exists |
| KernelCalls.ReturnsAtOnce | project/src/k_trap_handlers.cpp:71-168 | a call that does not switch returns to its caller with the code due; a granted `getc` with the first character of the ring |
| KernelCalls.CallReturns | project/src/k_trap_handlers.cpp:71-168 | over every run, what each call has left in a0 when its caller next runs: success and failure codes of all calls; a wait fails exactly if its caller was queued when the semaphore was closed; `getc` gives the character handed out |
| KernelTheorems.StepQueue | project/src/k_scheduler.cpp:24-33 | the ready queue is first in, first out across every kind of step |
| KernelTheorems.BoundedWaiting | project/src/k_trap_handlers.cpp:203-214 | a ready thread with i threads ahead becomes current after exactly i + 1 switches and within 2(i + 1) timer interrupts, whatever else happens, also when a thread run for the first time inherits the tick count |
| KernelSlices.SliceEnds | project/src/k_trap_handlers.cpp:210-213 | while nobody else gets the processor, the timer takes it exactly at the interrupt that completes the slice |
| KernelSlices.FullSliceIff | project/src/k_tcb.cpp:95-113 | a thread that gets the processor keeps it against the timer for a whole slice, in every run, exactly when it has run before or no interrupt is counted at the switch; otherwise the first interrupt may take it |
| KernelSlices.FirstSliceShort | project/src/k_tcb.cpp:95-113 | after boot the second timer interrupt starts the flush thread and the third stops it: a slice of one interrupt |
| KernelTheorems.FlagSurvives | project/src/k_sem.cpp:41-45 | the interrupted flag of a released waiter survives until it resumes, and is what its wait returns |
| KernelTheorems.WaitOutcome | project/src/k_sem.cpp:33-83 | a blocked wait returns WAIT_FAIL exactly when its thread was still queued at `close` |
| KernelHistories.JoinEndsAtExit | project/src/k_tcb.cpp:122-129 | a joiner leaves the queue at exactly the step in which the joined thread exits |
| KernelHistories.JoinLastsUntilExit | project/src/k_trap_handlers.cpp:107-112 | in every run, the joined thread lives and the joiner waits up to the step of the exit, and there the joiner becomes ready |
| KernelCalls.BootedJoins | project/src/main.cpp:43-49 | at boot no join semaphore lets anybody pass |
| KernelCalls.RunJoins | project/src/k_tcb.cpp:65 | in every reachable state the value of each live thread's join semaphore is minus the number of its joiners |
| KernelCalls.JoinStarts | project/src/k_trap_handlers.cpp:107-112 | `thread_join` on a live thread other than main suspends the caller on that thread |
| KernelCalls.JoinWaitsForExit | project/src/k_trap_handlers.cpp:107-112 | in every run from boot, the caller waits from the join to the exit of the joined thread and becomes ready in just that step |
| KernelHistories.LawFrom | project/src/k_sem.cpp:33-77 | over every run of the kernel, from a value that nobody waits for up to the closing, the law of counting semaphores holds of the operations done on a semaphore |
| KernelCalls.KernelSemaphore | project/src/k_trap_handlers.cpp:114-143 | over every run that begins with `sem_open(init)`, until the semaphore is closed, the law holds from the value init |
| KernelHistories.OutputInOrder | project/src/k_trap_handlers.cpp:159-162 | in every run each thread's characters enter the output in the order of its calls, none lost, none repeated, at most the one it is suspended in outstanding |
| KernelHistories.BootedInOrder | project/src/main.cpp:43-49 | the order holds at the start |
| KernelSleep.SleepsLongEnough | project/src/k_trap_handlers.cpp:145-152 | a thread sleeps on while fewer timer interrupts have come than it asked for |
| KernelSleep.SleepsNoLonger | project/src/k_trap_handlers.cpp:203-214 | the interrupt that completes the number makes it ready; it may run at once |
| KernelSleep.KernelWakesInOrder | project/src/k_tcb_sleep_queue.cpp:68-78 | in every run of the kernel, a timer interrupt appends to the ready queue exactly the threads whose sleep ends with it, in the order in which they went to sleep |
| KernelConsole.StepConsole | project/src/k_trap_handlers.cpp:22-54 | every step keeps the books: free slots of the output ring plus promised ones, filled slots of the input ring less promised ones, and transmitted output plus ring equal to the completed puts in order |
| KernelConsole.PromisesKept | project/src/k_trap_handlers.cpp:154-162 | a thread that resumes to put a character finds space, and one that resumes to get one finds a character, whoever overtook it |
| KernelCalls.StepHandsOut | project/src/k_trap_handlers.cpp:154-157 | whatever a step hands out is the character that the thread running after it has in a0, whether its `getc` was granted at once or it had been suspended in it |
| KernelCalls.InputInOrder | project/src/k_trap_handlers.cpp:154-157 | over every run the characters that a thread finds in a0 after its `getc`s are those handed to it, in order |
| KernelCalls.LogsAreTrue | project/src/k_trap_handlers.cpp:41-54 | the accepted characters are those of the device's interrupts for which the ring had room, and the calls those that threads made, in order |
| KernelCalls.ConsoleEndToEnd | project/src/k_trap_handlers.cpp:22-54 | in every run from boot: accepted characters = those found by threads + ring; each thread's `putc` characters = its own among the sent and buffered + at most one pending, in order |
| Machine.Hart.SaveCpuRegistriesOnStack | project/src/k_traps.S:32-42 | the stores leave the frame that the function on values gives |
| Machine.Hart.RestoreCpuRegistriesFromStack | project/src/k_traps.S:44-53 | the loads give the registers that the function on values gives |
| Machine.Hart.SaveInContext | project/src/k_save_context.S:5-58 | `k_save_context`, instruction by instruction, is the function on values, with result 0 |
| Machine.Hart.RestoreFromContext | project/src/k_restore_context.S:5-57 | `k_restore_context`, instruction by instruction, is the function on values, with a result that is not 0 |
| Machine.Hart.KTcbStart | project/src/k_tcb_start.S:9-23 | `k_tcb_start` is the function on values |
| Machine.Hart.TrapEntry | project/src/k_traps.S:3-10 | a trap routine up to its call is the function on values |
| Machine.Hart.TrapExit | project/src/k_traps.S:12-29 | a trap routine after its call is the function on values, for calls and for interrupts |
| ContextSwitch.BootedInv | project/src/main.cpp:39-41 | the main thread alone, its kernel stack set, satisfies the invariant |
| ContextSwitch.StepInv | project/src/k_traps.S:65-110 | every step of every thread keeps frames, contexts and kernel stacks of all threads intact |
| ContextSwitch.ResumesAsLeft | project/src/k_traps.S:3-110 | whatever happens between a trap and its return, the thread finds all registers, its own stack pointer, place, mode and interrupt enable; after a call all but a0, which holds that call's own result, behind the `ecall` |
| ContextSwitch.FirstReturn | project/src/k_save_context.S:5-58 | `k_save_context` returns to its caller with result 0 and every other register as it was |
| ContextSwitch.SecondReturn | project/src/k_restore_context.S:5-57 | whether the thread before stays or ends, a restored thread is where it called `k_save_context`, with the registers and the stack it had there, but with a result that is not 0 |
| ContextSwitch.FirstRun | project/src/k_tcb_start.S:9-23 | whether the thread before stays or ends, a thread run for the first time starts at `k_tcb_run_wrapper` on its own user stack, thread pointer 0, interrupts enabled |
| ContextSwitch.StartsAsCreated | project/src/k_tcb.cpp:39-62 | however long after its creation, it starts so with the user stack it was given and in the mode its creator had |
| BoundedBuffer.StepInv | project/test/buffer.cpp:29-71 | every statement of every thread keeps the invariant |
| BoundedBuffer.DeliversInOrder | project/test/buffer.cpp:29-53 | under every interleaving the values taken out are the first of those put in, in order, and never more than the capacity are inside |
| BoundedBuffer.NeverOverwrites | project/test/buffer.cpp:29-39 | storing overwrites no value that is still inside |
| BoundedBuffer.ReadsOldest | project/test/buffer.cpp:41-46 | loading finds a value, and it is the oldest inside |
| BoundedBuffer.TakesWhatItLoaded | project/test/buffer.cpp:46-48 | the value a thread takes out is the one it loaded, and goes to no other |
| BoundedBuffer.CountsExactly | project/test/buffer.cpp:55-71 | `getCnt` computes the exact number of values inside |
| BufferResults.StepAccounted | project/test/buffer.cpp:29-71 | each statement of each thread, seen from any thread: what it returns or has in hand is what it took or counted; what it stores or has in hand is its argument |
| BufferResults.CallersGetTheirs | project/test/buffer.cpp:29-71 | under every interleaving, for every thread: what it put in are the arguments of its `put`s, its `get`s return what it took out, its `getCnt`s return the exact numbers it counted, in order |
| BufferResults.NothingElse | project/test/buffer.cpp:29-53 | nothing enters or leaves the buffer but what the stepping thread puts in or takes out |
| BufferResults.PutWaitsIff | project/test/buffer.cpp:29-30 | `put` waits exactly when every place is full or promised |
| BufferResults.GetWaitsIff | project/test/buffer.cpp:41-42 | `get` waits exactly when every value inside is promised |
| BoundedBuffer.MutualExclusion | project/test/buffer.cpp:29-71 | no two threads hold the same mutex |
| BoundedBuffer.HoldersGoOn | project/test/buffer.cpp:29-71 | while a mutex is taken, some thread that holds one can take its next step |
| BoundedBuffer.Buffer.ExecuteStatement | project/test/buffer.cpp:29-71 | one statement on the array, written in place with indices going round by a remainder, is one step |
| Console.PrintUint64 | project/src/console.cpp:50-63 | for every 64-bit number the digits emitted denote it, without a leading zero, and the terminator follows |
| Console.GetString | project/src/console.cpp:65-103 | for every stream of keys the buffer begins with the fold of pushes and deletions up to Enter or full length, a terminator behind it; the caller, who gets the buffer alone, reads that text up to its first 0; the echo is that of the keys read |
| Console.DeleteUndoes | project/src/console.cpp:76-87 | Delete takes back the key before it and does nothing to an empty line |
| Console.StringIsWhole | project/src/console.cpp:65-103 | the caller reads all that was typed exactly when no key 0 stays undeleted; it is enough that none is read |
| Console.TerminatorTyped | project/src/console.cpp:94-97 | key 0 and then a character: two characters typed, and the caller reads the empty string |
| Console.EchoFaithful | project/src/console.cpp:73-98 | the screen shows the string at every moment exactly when no control character but Delete and Enter is read |
| Console.BackspaceNotShown | project/src/console.cpp:94-97 | a backspace after one character: two characters in the string, none under the cursor on the screen |
| Utils.GetDecimalWeight | project/h/k_utils.hpp:14-26 | the weight of the first digit, also where ten times the weight leaves 64 bits |
| Utils.RoundsUp | project/h/k_utils.hpp:8-12 | the number of blocks just holds the bytes exactly for sizes whose count fits 32 bits |

## Findings

- The echo of `get_string` does not always show the string (project/src/console.cpp:94-97). A
  control character such as a backspace, a tab or a line feed is stored like any other but is not
  shown when echoed: `Console.BackspaceNotShown` gives an input, `Console.EchoFaithful` the exact
  condition.
- The string that `get_string` returns is cut short by a key 0, which is stored like any character
  (project/src/console.cpp:94-97): `Console.TerminatorTyped` gives an input, `Console.StringIsWhole`
  the exact condition.
- A failed `thread_create` may lose memory (project/src/syscall_c.cpp:27-35): without memory for the
  control block, the user stack allocated before stays allocated. `AllocatorRuns.StackLost` gives a
  heap, `AllocatorRuns.CreateThreadMemory` says exactly when, by what fits.
- `sem_open` takes an unsigned value and keeps it as a signed `int`
  (project/src/k_trap_handlers.cpp:117): from 2^31 on the semaphore starts below 0.
  `SemSpec.OpensRight` is the exact condition.
- A request for 0 blocks is answered with the address of the smallest free run, which stays free and
  cannot be given back (project/src/k_memory.cpp:50-95): `MemoryAllocation.MemoryAllocator.Alloc`
  and `AllocatorRuns.AllocThenFree` state it.
- `to_blocks` rounds up rightly exactly for sizes of at most 64 (2^32 - 1) bytes
  (project/h/k_utils.hpp:8-12): `Utils.RoundsUp`.
- A thread run for the first time inherits `timer_ticks`, since only the second return of
  `k_save_context` resets it (project/src/k_tcb.cpp:95-104), so its first slice may be cut short:
  `KernelSlices.FirstSliceShort` gives a run, `KernelSlices.FullSliceIff` the exact condition.
- `k_restore_context` returns 0x1000, not 1 as its comment has it
  (project/src/k_restore_context.S:54-57): `lui` loads the upper part. Only that it is not 0 matters.
- `thread_join` leaves the failure code in a0 also when it succeeds
  (project/src/k_trap_handlers.cpp:107-112). Its signature returns nothing; the model follows the code.

## Left out

- The panic path (project/src/k_trap_handlers.cpp:170-200): it bypasses the output semaphore and then spins forever.
- UART, PLIC and the control registers not needed for registers, mode and interrupt enable: readiness of the device and arriving characters are inputs of the model.
- AllocatorRuns.CreateThenExit: says nothing of a creation without memory for the kernel stack or the semaphore, because the code then frees an uninitialised pointer or writes through null.
- Out of memory in the kernel's transition system: creation of a thread or a semaphore succeeds there.
- Kernel.Kernel.HandleThreadCreate: null arguments are not modelled apart; the call then only leaves the failure code in a0, as `OtherCall` does.
- Kernel.Kernel.constructor: the static initialisers themselves, which leave empty lists, empty rings and a running main thread.
- The heap and the allocator are separate parts: a control block or semaphore is an object handed to the kernel, which may have been used before, not an address of the allocator.
- Forged or stale handles: joining a thread that has exited, using a semaphore that has been closed, closing a semaphore of the kernel's own.
- MemoryAllocation.MemoryAllocator.Free: takes null, an unaligned address or an address in the managed area, because the code indexes its table without a range check.
- MemoryAllocation.MemoryAllocator.Alloc: takes block counts of 32 bits, as `blocks_t` does; the truncation of a wider count on the way in is not modelled.
- Kernel.Kernel.HandleSemOpen: takes initial values below 2^31, and the value of a semaphore does not wrap, because a run of 2^31 signals is out of scope.
- Kernel.Kernel.HandleEcall: the memory and mode calls only set a0 here; the allocator and the mode bit have their own parts.
- ContextSwitch.ResumesAsLeft: compiled code is assumed to obey the calling convention, to keep to its own kernel stack and to leave contexts alone; memory is a map of words, so unaligned or overlapping accesses are not modelled.
- Contexts of new threads: what the allocator left in the slots that `create_tcb` does not write is unspecified in `ContextSwitch`; in the transition system the saved a0 of a new thread starts as 0.
- Console.GetString: the allocation of the string succeeds; keys beyond the 256 of the source's `char` are allowed but nothing depends on them.
- Console.EchoFaithful: the terminal's line is as wide as it needs to be, every character that is not a control character takes one cell, and escape sequences are not interpreted.
- The flush thread sends one character per step, so other steps may come between two characters; in the code a whole round is masked. Every run of the code is a run of the model.
- `console_lock`, whose initialisation is unsynchronised; the console functions are treated as sequential.
- The destructor of the bounded buffer (project/test/buffer.cpp:11-27).
- The C and C++ wrappers, `PeriodicThread`, `operator new` and `operator delete`: thin forwarding.
- The demonstration tests, the spin lock of the tests, linker script and build files.
