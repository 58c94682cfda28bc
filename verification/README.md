# The SENTINEL kernel, modelled and proved in Dafny

SENTINEL's kernel is a preemptive fixed-priority RTOS: a scheduler and tick handler
over a table of task control blocks, mutexes with priority inheritance and direct
handoff, counting semaphores with token handoff, a bounded message queue built from
two semaphores and a mutex, and a PendSV context switch. This project models all
five and proves what they promise for every run, not for chosen schedules.

`dafny verify dfyconfig.toml` checks everything.

## How it is built

The model has three layers.

* **Values.** `KernelModel` gives each kernel operation as a function from state to
  state; tasks and primitives are named by table index, and a wait queue is the list
  of tasks in the live prefix of its array. `KernelRuns` makes these functions the
  steps of a machine (tick, scheduler pass, yield, delay, acquire, release) that
  tasks and interrupts may interleave in any order. The theorems about whole runs are
  about this machine.
* **Code.** `Kernel` holds the task table, the primitives and their wait-queue arrays
  in a class whose methods update them in place, loop by loop, as the C functions do.
  Each method is proved to have exactly the effect of its function, and
  `KernelRefinement` concludes that any run of the code is a run of the machine.
  `MessageQueue` does the same for the queue as one polling caller sees it, and
  `ContextSwitch.Processor` for the assembly and the initial stack frame. `Dispatch`
  joins the kernel and the processor in a switch and in task creation.
* **Callers.** `Protocol` adds what callers know (what their acquire reported, what
  they hold) and counts tokens. `QueueProtocol` cuts the queue's send and receive into
  the steps between which anything else may run.

| file | about |
|---|---|
| `Sequences`, `Ring` | lists without repetition, sums, modular slots |
| `KernelModel`, `KernelInvariant`, `TickRefinement`, `KernelRuns` | operations, the linkage invariant, the tick, runs |
| `Scheduling`, `Timing`, `Priority`, `Bypass` | fairness, sleeps and timeouts, donation and inversion, bounded bypass |
| `Idle`, `IdleCallers`, `NoIdleExample` | why whoever executes is RUNNING, and what happens otherwise |
| `Preemption`, `NestingExample` | who lent what to whom, preemption, and how nesting spoils it |
| `StartUp` | creating tasks, launch, and calls made before any task runs |
| `Protocol` | mutual exclusion and semaphore conservation as callers see them |
| `QueueProtocol`, `QueueInvariant`, `QueueSteps`, `QueueTheorems`, `OverwriteExample` | the interleaved message queue |
| `QueueCallers` | what each caller of the queue asks for, gets and is told |
| `Kernel`, `KernelRefinement`, `MessageQueue` | the C code's arrays and loops |
| `ContextSwitch` | exception entry, PendSV_Handler, exception return, first frames |
| `Dispatch` | kernel and processor together: task creation, PendSV around the scheduler and its canary check |

## Three findings

**A send can lose the newest message.** The comment at `Kernel/os_queue.c:19-23` says
that a send which finds no slot gives up the oldest message rather than the new one.
The code does so exactly when, at its locked section, a message is still unread, that
is, when the filled count is positive or some task has written but not yet posted, or
has been granted but not yet read, a message (`QueueTheorems.SlotlessKeepsNewest`).
Otherwise the write is followed by a tail move past it, and the new message itself is
lost. The ring can be empty there for two reasons: receivers emptied it between the
failed wait for a slot and the locked section, or the slots are held by senders that
have not written yet. `OverwriteExample.NewestCanBeLost` is a nine-step run of the
second kind, from a fresh queue of capacity 1. The message is safe if, from any moment
up to its tail move, fewer reads complete than there were unread messages at that moment
(`QueueTheorems.FewReadsKeepNewest`), and always for a single polling caller
(`MessageQueue.Perform`). The model follows the code.

**Under nested locking a release drops a live donation.** A task that owns two
mutexes, releasing one nobody waits for, falls to its base priority although a waiter of
the other has lent it more (`NestingExample.NestedDropIsLive`: a legal run from launch,
without any timeout). The comment at `Kernel/os_kernel.c:313-315` says as much. The exact
conditions, for any nesting:

* A release keeps every owner at or above its waiters iff nobody who waits for another
  mutex of the same owner outranks that owner's base priority. A call that parks does so
  iff, when the owner it waits for waits for a mutex itself, the caller does not outrank
  that mutex's owner. No other step can spoil it (`Priority.RankStep`,
  `Priority.InversionBounded`).
* No READY task ever outranks the current one, between a pass and the next request for
  one, iff no task gives up a donation, in a release that finds nobody waiting, while a
  READY task outranks its base priority (`Preemption.StrictStep`, `Preemption.StrictRun`).
* What such a release drops was lent by a waiter that has timed out, or by one that still
  waits for another mutex of the releasing task (`Preemption.QuietDrop`). So it was left by
  a timed-out waiter whenever nobody waits for another (`Preemption.LeftoverRun`).

**Without an idle task a BLOCKED task goes on.** With nobody to run, os_scheduler stays
where it is (`Kernel/os_kernel.c:103`), and the processor goes back into the BLOCKED caller,
whose acquire returns the OS_SUCCESS stored when it began to wait
(`Kernel/os_kernel.c:182`, `:304`, `:372`). `NoIdleExample.ReturnsWhileBlocked` is such a
run: a token is taken that was never posted. A pass leaves the current task RUNNING iff
some task can run (`Idle.PassAwakes`), and whoever executes is RUNNING throughout a run
iff every pass finds somebody (`Idle.AwakeRun`).

## Assumptions

These are what the code relies on. They appear as enabling conditions or hypotheses.

* A critical section, a tick and a scheduler pass are each one atomic step.
  `SysTick_Handler` and `os_scheduler` do not mask interrupts themselves, so for these
  two it is an assumption. A call's own yield belongs to the critical section before
  it; a yield may also happen by itself at any time.
* After launch, a task that makes a blocking call, returns from one or goes on in the
  queue's code is RUNNING, and no switch is pending. The machines' enabling conditions
  (`Enabled`, `SysEnabled`, `QEnabled`) say so, and all theorems about runs rest on it:
  mutual exclusion, conservation, timing and the message queue included. What the code
  itself guarantees is only that no switch is pending (`Possible`, `SysPossible`,
  `QPossible`). The two agree in every run with an idle task that never blocks, which is
  the application's duty by the comment at `Kernel/os_kernel.c:103`
  (`Idle.IdleRunLegal`, `IdleCallers.SysIdleRunLegal`, `IdleCallers.QIdleRunLegal`). The
  idle task may poll, take what is free and delay for no time.
* Interrupts are enabled at blocking calls. Releases of a semaphore may come from
  interrupt handlers at any time.
* All tasks are created before launch.
* `os_mutex_release` does not check its caller. The kernel's own invariants are proved
  for arbitrary releases. Mutual exclusion, in `Protocol`, assumes that a mutex is
  released by a task holding it.
* Primitives are initialised once, are unlocked at launch, a semaphore starts within
  its maximum, and a queue's capacity is positive.
* The number of tasks is a parameter N in place of `MAX_TASKS`; a mutex's queue holds
  N - 1 tasks and a semaphore's N, as in `Inc/os_kernel.h:10`, `:24` and `:38`. There
  are any number of mutexes, semaphores and tasks up to N.
* `os_ticks` wraps at 2^32. Timeouts and priorities are any natural numbers, which
  includes every value the C types allow.
* Memory addresses count words, so "8-byte aligned" reads "even". Exception entry and
  return follow sections B1.5.6 and B1.5.8 of the ARMv7-M Architecture Reference
  Manual with CCR.STKALIGN set and no floating-point state; stack alignment at a task's
  start is that of section 6.2.1.2 of AAPCS32. Tasks write no other task's stack and
  have 18 words left when they are switched out.

## Model

| member | source | states |
|---|---|---|
| `KernelRuns.ReachableInv` | Kernel/os_kernel.c:83-222 | In every reachable state a task's back-pointer names a queue iff the task occurs in it, exactly once and in no other; queued tasks are BLOCKED; a running timer implies BLOCKED, BLOCKED implies queued or timed; only the current task is RUNNING; lock and owner agree; a waiter implies a locked mutex or an empty semaphore |
| `KernelRuns.BootedRunInv` | Kernel/os_kernel.c:237-252 | The same for every run after launch, whatever tasks were created and primitives initialised |
| `KernelRuns.StepInv` | Kernel/os_kernel.c:83-392 | Each kernel operation by itself keeps that invariant |
| `KernelRuns.StepFrame` | Kernel/os_kernel.c:141-392 | No step creates or destroys a task or a primitive or changes a base priority |
| `KernelRuns.BlockedFrame` | Kernel/os_kernel.c:141-196 | A BLOCKED task changes only by a tick or by the release that chooses it; anything else can at most raise or drop its lent priority |
| `KernelRuns.ViewFrame` | Kernel/os_kernel.c:141-222 | Exactly which steps change a task's queue, answer and remaining time, and to what |
| `KernelRuns.PrimFrame` | Kernel/os_kernel.c:120-392 | Exactly how each step changes every mutex and semaphore, including those it was not called on |
| `Idle.PassAwakes` | Kernel/os_kernel.c:103-111 | After a pass the current task is RUNNING iff some task could run |
| `Idle.AwakeRun` | Kernel/os_kernel.c:83-112 | Over any possible run, whoever executes is RUNNING throughout iff every pass finds somebody to run; the theorems about runs then apply |
| `Idle.AliveAtLaunch` | Kernel/os_kernel.c:237-252 | Launch leaves the current task RUNNING and the idle task able to run |
| `Idle.AliveStep` | Kernel/os_kernel.c:83-392 | If the idle task does not block, every possible step comes from a RUNNING task and keeps it so |
| `Idle.IdleRunLegal` | Kernel/os_kernel.c:83-392 | Hence every possible run in which idle does not block is one the theorems about runs cover |
| `Idle.BootedIdleRun` | Kernel/os_kernel.c:237-252 | From boot no other hypothesis is needed for the invariant and that coverage |
| `IdleCallers.SysIdleRunLegal` | Kernel/os_kernel.c:263-392 | The same for callers: whoever calls, returns from a call or releases a mutex is RUNNING |
| `IdleCallers.QIdleRunLegal` | Kernel/os_queue.c:24-72 | The same for producers and consumers |
| `NoIdleExample.ReturnsWhileBlocked` | Kernel/os_kernel.c:346-373 | From launch without an idle task: possible steps after which an acquire has reported OS_SUCCESS to a BLOCKED, queued task and the semaphore's balance is broken |
| `StartUp.TaskCreateShape` | Kernel/os_kernel.c:46-66 | The new task is last, READY, with base and current priority as asked, waiting for nothing; earlier tasks and everything else are as they were; the first task created becomes current |
| `StartUp.CreateAllShape` | Kernel/os_kernel.c:46-66 | Tasks created one after another each keep what they were created with |
| `StartUp.LaunchPicks` | Kernel/os_kernel.c:237-252 | Launch starts the first highest-priority task in cyclic order after the first one created, leaves all others READY and changes nothing else |
| `StartUp.BootUp` | Kernel/os_kernel.c:42-252 | From an initialised kernel: after creating tasks with any list of priorities and launching, each has the priority given for it and the RUNNING one has the maximum |
| `StartUp.MutexBeforeLaunch` | Kernel/os_kernel.c:263-285 | Before launch, with or without tasks and whatever the timeout: OS_SUCCESS iff free, OS_FAIL iff locked by the caller, or by nobody when no task exists, OS_TIMEOUT otherwise; never parked, and a refusal changes nothing |
| `StartUp.SemaphoreBeforeLaunch` | Kernel/os_kernel.c:346-361 | Likewise: OS_SUCCESS iff a token is there, which is then taken, else OS_TIMEOUT and no change |
| `StartUp.NoDelay` | Kernel/os_kernel.c:212 | A delay before launch, or of no time, changes nothing |
| `StartUp.UncontendedRelease` | Kernel/os_kernel.c:307-335 | At any time, releasing a mutex nobody waits for frees it, returns its owner to base and does no more |
| `StartUp.UncontendedPost` | Kernel/os_kernel.c:375-392 | At any time, posting a semaphore nobody waits for adds one token up to the maximum and does no more |
| `KernelInvariant.TaskCreateBooted` | Kernel/os_kernel.c:42-68 | Creating a task keeps the boot state launchable |
| `KernelInvariant.LaunchInv` | Kernel/os_kernel.c:237-252 | Launch establishes the invariant and changes nothing of a task but its state |
| `KernelInvariant.ScheduleFrame` | Kernel/os_kernel.c:83-112 | A pass changes only task states and the current task, never who can run, and leaves at most one RUNNING |
| `KernelInvariant.SwitchInv` | Kernel/os_kernel.c:83-112 | A pass keeps the invariant |
| `KernelInvariant.DelayInv` | Kernel/os_kernel.c:210-222 | Clearing the back-pointers in os_delay never orphans a queue slot |
| `KernelInvariant.ParkLinked` | Kernel/os_kernel.c:173-187 | Parking links the task and its new slot and disturbs no other link |
| `KernelInvariant.QueueHasRoom` | Kernel/os_kernel.c:173-187 | Wait queues never fill: waiters are distinct and exclude the caller and, for a mutex, the owner, so N - 1 and N slots are enough |
| `KernelInvariant.AcquireInv` | Kernel/os_kernel.c:263-373 | Acquire keeps the invariant on every path |
| `KernelInvariant.AcquireOutcome` | Kernel/os_kernel.c:263-373 | OS_FAIL iff the caller already owns the mutex, success at once iff it is free or a token is there, OS_TIMEOUT at once only for polls |
| `KernelInvariant.AcquireShape` | Kernel/os_kernel.c:263-373 | A success changes only the primitive, a refusal nothing, and parking only the caller, the owner's priority, the queue and the switch request |
| `KernelInvariant.WakeLinked` | Kernel/os_kernel.c:190-196 | Waking takes the task out of the queue it is in, keeping the others' order, and keeps every link |
| `KernelInvariant.HandoffShape` | Kernel/os_kernel.c:307-331 | A contended release passes ownership without unlocking |
| `KernelInvariant.PostShape` | Kernel/os_kernel.c:375-388 | A contended post passes the token without touching the count |
| `KernelInvariant.ReleaseInv` | Kernel/os_kernel.c:307-392 | Release keeps the invariant even when called by a task that is not the owner |
| `TickRefinement.TickIsSimultaneous` | Kernel/os_kernel.c:141-167 | The loop that visits tasks in index order and shifts shared queues equals one simultaneous update: each nonzero timer down by one, exactly those reaching 0 made READY, each queue filtered in order |
| `TickRefinement.TickUpToIsPrefix` | Kernel/os_kernel.c:145-161 | The same after any number of iterations |
| `TickRefinement.QueueAfterExpiry` | Kernel/os_kernel.c:120-139 | One expiry filters the task's own queue by one more member and no other queue |
| `TickRefinement.TickAllLinked` | Kernel/os_kernel.c:141-167 | All links survive any set of simultaneous timeouts |
| `TickRefinement.TickInv` | Kernel/os_kernel.c:141-167 | A tick keeps the invariant |
| `Timing.TickAlwaysPreempts` | Kernel/os_kernel.c:143-166 | Every tick advances the 32-bit clock by one and asks for a pass, even if it wakes nobody |
| `Timing.ClockCountsTicks` | Kernel/os_kernel.c:114-143 | Over every run os_ticks is the number of ticks modulo 2^32 |
| `Timing.ExactSleep` | Kernel/os_kernel.c:210-222 | A task calling os_delay(k), k > 0, stays BLOCKED through ticks 1 to k - 1 and is READY at tick k, waiting for nothing and with its last wait's answer untouched, under every interleaving |
| `Timing.StillSleeping` | Kernel/os_kernel.c:141-161 | Through fewer than k ticks a sleeper stays BLOCKED with exactly the remaining time |
| `Timing.WaitingStep` | Kernel/os_kernel.c:141-196 | How one step can end a timed wait: only a release of that primitive, or the tick that exhausts it |
| `Timing.StaysEnded` | Kernel/os_kernel.c:189-196 | Between wakeup and resumption no step changes the answer and no release chooses the task |
| `Timing.WaitEnds` | Kernel/os_kernel.c:141-196 | Over any run a waiter is either handed the resource, or still queued with exactly its remaining time, or timed out, and these exclude each other |
| `Timing.AcquireEnds` | Kernel/os_kernel.c:294-304 | A parked acquire is over by its deadline; OS_SUCCESS iff a release chose it, OS_TIMEOUT iff none did; 0xFFFFFFFF alone means no deadline |
| `Scheduling.SchedulePicks` | Kernel/os_kernel.c:83-112 | A pass picks the first highest-priority task that can run in cyclic order after the current one, or changes nothing if none can run |
| `Scheduling.ChoiceUnique` | Kernel/os_kernel.c:78-82 | That description fits only one task |
| `Scheduling.ScanFindsBest` | Kernel/os_kernel.c:92-101 | Any prefix of the cyclic scan has found the best task in it, the earliest among equals |
| `Scheduling.PassProgress` | Kernel/os_kernel.c:78-112 | A pass that passes over a top-priority ready task strictly shortens its cyclic distance from the current one |
| `Scheduling.PickedWithin` | Kernel/os_kernel.c:78-112 | Such a task is picked before the passes exceed that distance, whatever happens in between |
| `Scheduling.RoundRobin` | Kernel/os_kernel.c:78-112 | Hence within as many passes as there are tasks |
| `Preemption.LoansStep` | Kernel/os_kernel.c:287-316 | Each step, under any nesting, keeps this: a task is at its base priority, or above it by exactly one loan, made through a mutex it owns by a task that still waits for that mutex unless its wait has timed out |
| `Preemption.LoansRun` | Kernel/os_kernel.c:287-316 | The same over every run |
| `Preemption.LendersRun` | Kernel/os_kernel.c:287-335 | When tasks take one mutex at a time, an owner above its base runs at exactly the priority of a task queued for its mutex, or of one that timed out of that queue since the owner got it |
| `Preemption.QuietDrop` | Kernel/os_kernel.c:311-316 | What a release that finds nobody waiting drops is a loan through a mutex the task owns; its lender has timed out, or still waits for another mutex the task owns |
| `Preemption.PreemptiveStep` | Kernel/os_kernel.c:83-335 | Each step keeps the preemption invariant |
| `Preemption.PreemptiveRun` | Kernel/os_kernel.c:83-335 | Over all runs, with any nesting: with no switch pending, the current task is RUNNING and no READY task outranks its highest priority since the last pass; it still has that priority, or has dropped to its base by giving up, in an uncontended release, one loan of exactly that amount |
| `Preemption.LeftoverRun` | Kernel/os_kernel.c:311-316 | If tasks release a mutex only while nobody waits for another of theirs, the lender of the loan dropped had timed out |
| `Preemption.OneAtATimeLeavesNobody` | Kernel/os_kernel.c:313-315 | Runs that take one mutex at a time are of that kind |
| `Preemption.StrictStep` | Kernel/os_kernel.c:83-335 | Under any nesting, a step keeps READY tasks from outranking the current one iff it is not an uncontended release that drops a donation below a READY task |
| `Preemption.StrictRun` | Kernel/os_kernel.c:83-335 | Over any possible run in which idle does not block: with no switch pending, the current task is RUNNING and no READY task outranks its present priority, throughout, iff no step is of that kind |
| `Preemption.IdleRunWatched` | Kernel/os_kernel.c:83-392 | Every possible run in which idle does not block is one that PreemptiveRun covers |
| `Preemption.StrictPreemption` | Kernel/os_kernel.c:83-335 | It is so if tasks release a mutex only while nobody waits for another of theirs and no wait for a mutex times out |
| `NestingExample.NestedDropIsLive` | Kernel/os_kernel.c:313-316 | A legal run from launch, without timeouts, in which a nested release drops a live waiter's donation and leaves an owner ranked below its waiter |
| `Preemption.PreemptiveAtLaunch` | Kernel/os_kernel.c:237-252 | Launch establishes all hypotheses of these theorems, with nothing lent |
| `Priority.DonationsNeverLeak` | Kernel/os_kernel.c:287-316 | Over all runs, with any nesting: a task owning no mutex is at its base priority, none is below it, and every effective priority is some task's base priority |
| `Priority.DonationStep` | Kernel/os_kernel.c:287-316 | Each step keeps that |
| `Priority.DonationAtLaunch` | Kernel/os_kernel.c:48-49 | It holds at launch |
| `Priority.AcquirePriorities` | Kernel/os_kernel.c:287-292 | An acquire changes no priority but the owner's, only upward, and takes no mutex from anyone |
| `Priority.ReleasePriorities` | Kernel/os_kernel.c:307-335 | A release returns exactly the old owner to base, whoever calls it, and makes the chosen waiter owner |
| `Priority.PickIsBest` | Kernel/os_kernel.c:198-208 | The scan of a queue prefix yields its highest priority, the earliest among equals |
| `Priority.ChosenIsBest` | Kernel/os_kernel.c:319-326 | The waiter a release chooses is the best and earliest as priorities stood before the release |
| `Priority.RankStep` | Kernel/os_kernel.c:287-335 | Under any nesting, a step keeps each owner at or above each of its waiters iff it meets the release or parking condition above; conditions on priorities, owners and queues that hold before the step |
| `Priority.InversionBounded` | Kernel/os_kernel.c:287-335 | Over every run, no owner ever ranks below a waiter iff every step meets its condition |
| `Priority.OneAtATimeRun` | Kernel/os_kernel.c:313-315 | Over every run in which no task takes a mutex while holding another, no owner ever ranks below a waiter, through acquires, timeouts and handoffs |
| `Priority.InheritsStep` | Kernel/os_kernel.c:287-335 | Each step of such a run also keeps tasks from owning two mutexes, or one while waiting for one |
| `Priority.InheritsAtLaunch` | Kernel/os_kernel.c:237-261 | It holds at launch |
| `Priority.OwnerShieldsWaiters` | Kernel/os_kernel.c:83-112 | So while the owner can run, a pass never picks a task ranked below a waiter |
| `Bypass.ServedWithin` | Kernel/os_kernel.c:198-208 | For mutexes and semaphores: a waiter is granted the resource before its releases exceed the number of waiters ahead of it, or its time has run out, if those who join its queue own no mutex and do not outrank it |
| `Bypass.BypassStep` | Kernel/os_kernel.c:120-335 | A release passing the waiter over lowers the number ahead by at least one, every other step does not raise it |
| `Bypass.UnlentStep` | Kernel/os_kernel.c:287-335 | If those who join a queue own no mutex, its waiters never do, so nothing is lent to them while they wait |
| `Bypass.BypassRelease` | Kernel/os_kernel.c:307-335 | A release not granting the waiter lowers that number by exactly one |
| `Bypass.AheadAfterPick` | Kernel/os_kernel.c:198-208 | The same on the queue itself, FIFO among equals |
| `Bypass.AheadDrop` | Kernel/os_kernel.c:120-135 | Removals from the middle of a queue never move a remaining waiter back |
| `Bypass.AheadAppend` | Kernel/os_kernel.c:177-178 | An arrival that does not outrank a waiter does not pass it |
| `Protocol.MutualExclusion` | Kernel/os_kernel.c:263-335 | Over all runs at most one task holds a mutex or has been handed it; the mutex is then locked, that task is the owner and is not in its queue |
| `Protocol.OwnerIsHolder` | Kernel/os_kernel.c:263-335 | Locked iff owned, waiters imply locked, and the owner has been told or is about to be |
| `Protocol.ReturnIsHonest` | Kernel/os_kernel.c:303-304 | A blocked acquire that resumes reports OS_SUCCESS iff a release chose it since it blocked, for a mutex iff it is the owner at that moment, OS_TIMEOUT iff no release did, and never OS_FAIL |
| `Protocol.SemaphoreConservation` | Kernel/os_kernel.c:346-392 | initial + posts = saturated posts + count + tokens taken + tokens handed to tasks that have not resumed; count within its maximum; a free token means no waiter |
| `Protocol.ProtocolRun` | Kernel/os_kernel.c:263-392 | All of this is kept by every run |
| `Protocol.HeldStep` | Kernel/os_kernel.c:263-335 | Each step keeps owner fields and what callers have been told in agreement |
| `Protocol.ConservedStep` | Kernel/os_kernel.c:346-392 | Each step keeps every semaphore's balance |
| `Protocol.CallsStep` | Kernel/os_kernel.c:173-196 | A task inside a blocked call is queued where it called, or has its answer, OS_SUCCESS iff a release has chosen it; a task outside is in no queue |
| `Protocol.StartedAtLaunch` | Kernel/os_kernel.c:237-252 | Launching a booted kernel is a start these theorems apply to |
| `QueueTheorems.QueueConservation` | Kernel/os_queue.c:24-72 | For any number of producers and consumers and any interleaving: empty + filled + tokens in flight = capacity; messages = filled + written-not-posted + granted-not-read; with the lock free, head is that many slots past tail and the slots between hold the messages in order |
| `QueueTheorems.Linearizable` | Kernel/os_queue.c:34-65 | A send with a slot appends, one without turns c into (c + [m])[1..] whatever slipped in before its lock, a receive takes the front, and no other step changes the contents; unless a send is half-way through its locked section, the contents are exactly what buffer, head and tail hold |
| `QueueTheorems.InOrderDelivery` | Kernel/os_queue.c:34-65 | Messages leave in the order written; those received are the ones read, and exactly one is skipped per send without a slot |
| `QueueTheorems.AccessesAreSafe` | Kernel/os_queue.c:28-65 | A receiver reads the oldest unread message, a sender with a slot overwrites no unread one, and the paths for a failed lock are unreachable |
| `QueueTheorems.PostsNeverSaturate` | Kernel/os_queue.c:46-69 | Neither semaphore is ever at its maximum when it is posted |
| `QueueCallers.SendsAreWritten` | Kernel/os_queue.c:24-72 | For each task, over every run: the messages it passes to os_queue_send are written exactly once each and in that order, all but one of a send not yet past its locked section; what it takes from the ring is handed to it in that order, all but one of a receive that has not returned |
| `QueueCallers.EverySendIsWritten` | Kernel/os_queue.c:24-49 | In every reachable state, the messages written and those of sends not yet past their locked section are together, as a multiset, the messages of all calls made |
| `QueueCallers.OneSend` | Kernel/os_queue.c:24-49 | From a call of send until the task's next one, exactly its message is written by the task, and has been by the time it returns: with a slot at once, after waiting, without one, or after waiting for the lock |
| `QueueCallers.CallerStep` | Kernel/os_queue.c:24-72 | Each step keeps both accounts, for every task |
| `QueueCallers.CallsReturn` | Kernel/os_queue.c:24-72 | Every call returns exactly once, but for one under way |
| `QueueCallers.RepliesAreHonest` | Kernel/os_queue.c:24-72 | In every reachable state: a send that returns reports OS_SUCCESS; a receive reports OS_SUCCESS with one message or OS_TIMEOUT with none; neither reports OS_FAIL |
| `QueueCallers.SendCallWaits` | Kernel/os_queue.c:26 | A send takes a free slot at once; else it goes on without one if it polls, and waits for one with exactly its timeout if not |
| `QueueCallers.ReceiveCallWaits` | Kernel/os_queue.c:53-56 | A receive likewise takes a filled slot, returns OS_TIMEOUT at once or waits with exactly its timeout |
| `QueueTheorems.SlotlessKeepsNewest` | Kernel/os_queue.c:19-42 | A send without a slot leaves its message as the newest iff some message is unread at its locked section; otherwise it leaves an empty queue |
| `QueueTheorems.FewReadsKeepNewest` | Kernel/os_queue.c:19-42 | It does so if, since some earlier moment, fewer reads completed than there were unread messages then |
| `OverwriteExample.NewestCanBeLost` | Kernel/os_queue.c:19-42 | A legal run, without any receiver, in which the only message ever written is lost and the queue is empty |
| `QueueTheorems.QueueRun` | Kernel/os_queue.c:24-72 | The queue's whole invariant is kept by every run |
| `QueueTheorems.InitThenLaunch` | Kernel/os_queue.c:7-17 | os_queue_init followed by launch is a start these theorems apply to |
| `QueueTheorems.HistoryStep` | Kernel/os_queue.c:34-65 | Each step keeps written = left the ring + still unread, in order |
| `QueueTheorems.RingStep` | Kernel/os_queue.c:34-65 | Buffer, indices and contents agree at each point of the locked section, and kernel steps do not touch them |
| `QueueSteps.AccountedStep` | Kernel/os_queue.c:26-69 | Each step keeps both token equations |
| `QueueSteps.AccountedPost` | Kernel/os_queue.c:46-69 | A post moves its task's token to the count or to the waiter chosen, and finds room |
| `QueueSteps.TasksStep` | Kernel/os_queue.c:24-72 | Each step keeps every task either waiting for what its place in the code waits for or not waiting, with the lock owned exactly by the task in the locked section |
| `Ring.SlotsDiffer` | Kernel/os_queue.c:34-41 | Fewer than capacity apart, two ring positions are different slots |
| `Ring.HoldsAfterWrite` | Kernel/os_queue.c:34-35 | Writing the slot past the live ones appends, also when it lands on the oldest |
| `Ring.HoldsAfterPop` | Kernel/os_queue.c:65 | Moving the tail drops exactly the front message |
| `MessageQueue.SendsThenReceives` | Kernel/os_queue.c:24-72 | m sends and no receives then drain as the last min(m, capacity) messages in order |
| `MessageQueue.SendsKeepLast` | Kernel/os_queue.c:24-49 | Any sends into any window leave the last `capacity` of old and new together |
| `MessageQueue.ReceivesDrain` | Kernel/os_queue.c:51-72 | Receives hand back the window in order and empty it |
| `MessageQueue.MessageQueue.constructor` | Kernel/os_queue.c:7-17 | The queue starts as an empty window with all slots free |
| `MessageQueue.MessageQueue.WriteSlot` | Kernel/os_queue.c:34-42 | With a slot the write appends; without one c becomes (c + [m])[1..], in a full ring or not, and buffer, head and tail hold the result |
| `MessageQueue.MessageQueue.ReadSlot` | Kernel/os_queue.c:64-65 | Reads and removes the oldest message |
| `MessageQueue.MessageQueue.Send` | Kernel/os_queue.c:24-49 | A polling send always succeeds and pushes onto the window; counts, indices and buffer agree with it again, and nothing else in the kernel changes but the caller's lent priority |
| `MessageQueue.MessageQueue.Receive` | Kernel/os_queue.c:51-72 | A polling receive reports OS_TIMEOUT iff the window is empty, else hands over its front |
| `MessageQueue.MessageQueue.Perform` | Kernel/os_queue.c:24-72 | Every sequence of polling calls behaves as the window does |
| `Kernel.Kernel.constructor` | Kernel/os_kernel.c:224-235 | An initialised kernel is a boot state with no tasks |
| `Kernel.Kernel.Unlink` | Kernel/os_kernel.c:124-135 | The scan and shift close the gap a task leaves and keep the others in order; an absent task changes nothing |
| `Kernel.Kernel.WaitQueueRemove` | Kernel/os_kernel.c:120-139 | Effect on the whole kernel state |
| `Kernel.Kernel.BlockCurrent` | Kernel/os_kernel.c:173-187 | Parks the caller iff the array has room, else changes nothing |
| `Kernel.Kernel.WakeTask` | Kernel/os_kernel.c:190-196 | Effect on the whole kernel state |
| `Kernel.Kernel.PickWaiter` | Kernel/os_kernel.c:199-208 | The array scan yields the waiter that PickIsBest characterises |
| `Kernel.Kernel.TaskCreate` | Kernel/os_kernel.c:44-57 | Succeeds iff there is room, an entry point and 64 stack words, and then appends a READY task with the priority asked for; otherwise changes nothing |
| `Dispatch.CreateTask` | Kernel/os_kernel.c:42-68 | The whole of os_task_create: a success appends a READY task with the priority asked for, writes its canary and first frame and sets its stackPtr; a refusal changes neither kernel nor memory |
| `Kernel.Kernel.BestTask` | Kernel/os_kernel.c:92-101 | The array scan yields the task that SchedulePicks characterises |
| `Kernel.Kernel.Schedule` | Kernel/os_kernel.c:92-112 | Effect on the whole kernel state, once the canary check has passed |
| `Dispatch.PendSV` | Kernel/os_kernel_asm.s:19-41 | The whole switch around os_scheduler: it halts, with nothing scheduled, iff the outgoing task's canary is broken after the save; otherwise the kernel makes its pass and the processor switches to the task the pass picked |
| `Kernel.Kernel.Launch` | Kernel/os_kernel.c:249-250 | Has the effect that LaunchPicks describes |
| `Kernel.Kernel.Tick` | Kernel/os_kernel.c:141-167 | The in-place loop has the effect of the simultaneous update |
| `Kernel.Kernel.Switch` | Kernel/os_kernel_asm.s:29-31 | Taking the exception clears the request and makes a pass |
| `Kernel.Kernel.Yield` | Inc/os_kernel.h:60-65 | Requests a switch and changes nothing else |
| `Kernel.Kernel.Delay` | Kernel/os_kernel.c:210-222 | Effect on the whole kernel state; nothing before launch or for 0 |
| `Kernel.Kernel.MutexInit` | Kernel/os_kernel.c:256-261 | Free and without waiters |
| `Kernel.Kernel.MutexAcquire` | Kernel/os_kernel.c:263-305 | Return code or parking, and effect on the whole kernel state, on every path: before launch as MutexBeforeLaunch says, after it as AcquireOutcome and AcquireShape say |
| `Kernel.Kernel.MutexRelease` | Kernel/os_kernel.c:307-335 | Effect on the whole kernel state |
| `Kernel.Kernel.SemInit` | Kernel/os_kernel.c:339-344 | The given count and maximum, without waiters |
| `Kernel.Kernel.SemAcquire` | Kernel/os_kernel.c:346-373 | Likewise, by SemaphoreBeforeLaunch, AcquireOutcome and AcquireShape |
| `Kernel.Kernel.SemRelease` | Kernel/os_kernel.c:375-392 | Effect on the whole kernel state |
| `KernelRefinement.Perform` | Kernel/os_kernel.c:83-392 | Each operation of the code is the machine's step and keeps the invariant |
| `KernelRefinement.PerformAll` | Kernel/os_kernel.c:83-392 | Any run of the code is a run of the machine, so every theorem about runs holds of the arrays |
| `ContextSwitch.ContextIntegrity` | Kernel/os_kernel_asm.s:19-41 | A task switched out resumes with exactly the registers and stack pointer it had, whatever the others compute and however many switches come between |
| `ContextSwitch.Resumes` | Kernel/os_kernel_asm.s:19-41 | The same from any state in which the task is switched out, so also for one that has never run |
| `ContextSwitch.RunKeepsInv` | Kernel/os_kernel_asm.s:19-41 | After any run every switched-out task has its registers in a frame on its own stack |
| `ContextSwitch.SwitchCorrect` | Kernel/os_kernel_asm.s:19-41 | One switch saves the outgoing task and loads exactly the incoming one, keeping all other frames |
| `ContextSwitch.SaveMakesFrame` | Kernel/os_kernel_asm.s:20-26 | Entry and save write the task's frame, with bit 9 of the stacked xPSR telling whether it was padded, and no word outside it |
| `ContextSwitch.RestoreFromFrame` | Kernel/os_kernel_asm.s:33-41 | Restore and return undo save and entry, with or without alignment padding |
| `ContextSwitch.SwitchKeepsCanaries` | Kernel/os_kernel.c:58 | A switch leaves every stack's canary word alone |
| `ContextSwitch.SaveKeepsCanary` | Kernel/os_kernel.c:87-90 | So does the save that precedes os_scheduler's check, which therefore reports only a task's own overrun |
| `ContextSwitch.FirstFrame` | Kernel/os_kernel.c:21-68 | Building a first frame puts the canary in place, writes only the task's own stack, and yields a resumable frame, Thumb bit included, that starts at the entry point with the stack pointer at the 8-byte aligned top |
| `ContextSwitch.FirstRegisters` | Kernel/os_kernel.c:25-37 | The value of each register a task starts with |
| `ContextSwitch.FirstStartAgrees` | Kernel/os_kernel_asm.s:49-63 | os_start_first_task starts a new task at the PC and PSP that PendSV would; other registers may differ |
| `ContextSwitch.BuildFrames` | Kernel/os_kernel.c:42-68 | Building disjoint stacks one after another keeps the frame and canary of every one built before |
| `ContextSwitch.FreshStacks` | Kernel/os_kernel.c:42-68 | So after all are built the invariant that runs keep holds and every canary is in place |
| `ContextSwitch.Processor.SaveContext` | Kernel/os_kernel_asm.s:20-26 | R4-R11 go below PSP and the address to stackPtr |
| `ContextSwitch.Processor.RestoreContext` | Kernel/os_kernel_asm.s:33-39 | R4-R11 and PSP come from the current task's frame; the caller-saved registers hold anything |
| `ContextSwitch.Processor.SwitchIn` | Kernel/os_kernel_asm.s:33-41 | Whatever the handler and its C call left in the caller-saved registers, exception return replaces it |
| `ContextSwitch.Processor.SwitchTask` | Kernel/os_kernel_asm.s:19-41 | The whole switch with exception entry and return around it |
| `ContextSwitch.Processor.StartFirstTask` | Kernel/os_kernel_asm.s:49-63 | Loads the frame's PC and sets PSP past the frame; R0, R1 and R2 are left with its scratch values, the rest untouched |
| `ContextSwitch.Processor.InitFrame` | Kernel/os_kernel.c:21-40 | The pushes leave the sixteen words of a first frame in register order, and nothing else |
| `ContextSwitch.Processor.InitStack` | Kernel/os_kernel.c:58-62 | Canary, aligned top and first frame, with stackPtr at its lowest word |

## Left out

- Peripheral drivers, the benchmark, application tasks, `main`, the power-on tests, boot and linker files: register I/O and wiring.
- What os_stack_overflow_hook does: it is taken not to return, as the default one does not.
- Kernel.Kernel.Schedule: the canary check before the scan is in `Dispatch.PendSV`, since the kernel class has no stacks.
- Kernel.Kernel.TaskCreate: the stack that os_task_create builds is in `Dispatch.CreateTask`.
- Tasks created after launch: os_task_create does not look at kernel_running, but it changes the table without a critical section, and the machine has no such step.
- Debug, NVIC and SysTick register setup in os_kernel_init and os_kernel_launch, and the CONTROL and CPSIE instructions of os_start_first_task.
- PRIMASK saving and nesting, and interrupts inside `SysTick_Handler` or `os_scheduler`: each is taken as atomic.
- The moment between the end of a blocking call's critical section and its yield, in which the current task is BLOCKED with no switch requested: the two are one step here.
- Transitive donation: the comment at `Kernel/os_kernel.c:313-315` declares nesting unsupported, and the exact conditions under which the code copes with it are stated instead. Equality of owner and waiter priority is not claimed, since a timed-out waiter's donation stays until the release.
- Preemption.PreemptiveRun: under nesting it says how far a task can drop and whose loan it gave up, but not that the lender has timed out, which is then false.
- Bypass.ServedWithin: does not cover a waiter that owns a mutex while it waits, because others may lend to it or take back what they lent, and its rank in the queue then changes.
- MessageQueue.MessageQueue.Send: the in-place class covers one caller with timeout 0; blocking calls and many callers are covered by the interleaved model on values, where buffer and indices are fields of a state value.
- MessageQueue.MessageQueue.Receive: the same restriction to one caller with timeout 0.
- Widths of the 8-bit and 32-bit fields other than the tick counter: N, priorities and counts are natural numbers, and counts are proved to stay within their maximum.
- Liveness beyond the stated bounds, such as that a holder eventually releases.
