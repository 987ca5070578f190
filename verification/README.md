# JaeOS: a verified model

JaeOS is a small operating system for the uARM machine, in three layers: process
blocks and semaphore queues threaded through one table (phase 1), a nucleus of eight
system calls, interrupts and a scheduler (phase 2), and a demand pager with
per-process support code (phase 3). This project models all three and proves what they
keep over every run. Run `dafny verify dfyconfig.toml`.

## How it is laid out

| files | what they hold |
|---|---|
| `Sequences`, `Pcbs`, `PcbPool`, `Asl` | process queues, sibling lists, the free list and the active semaphore list, on pointers, each against the sequence or map it stands for |
| `Nucleus` | the nucleus as a state machine on values: `Step` is one handler, from entry to the point where it loads a state, halts, panics or waits |
| `Trees`, `Invariant`, `Killing`, `Safety` | the invariant of that machine, `Inv`, kept by every step and run |
| `Families`, `Lines`, `KernelFacts`, `KernelCode` | the nucleus on the heap: class `Kernel` owns the real queues, tree links, counters and semaphore array, and each of its handlers is proved to take exactly the step of the state machine (`M` is that machine's state, kept as history) |
| `Theorems`, `Ancestry`, `Accounts`, `Fairness` | what follows: one place per block, exact counters, deadlock, family trees, time and fairness |
| `Effects`, `Queueing`, `Rota`, `Tallies`, `Charges`, `Traps` | the nucleus told by events and not by handlers: who waits where and in which order, who runs and who is next, what each semaphore is worth, to whom each unit of time goes, which trap kills |
| `Shipped`, `Merged` | the fault in the code as shipped: a run that leads up to it, and what it does to the heap |
| `Pager`, `PagerLocks`, `PagerMemory`, `PagerTheorems`, `PagerProgress`, `PagerTurns` | the pager as a protocol: every process at its own place in its code, any of them may take the next step; what stays true, that faults and loads end, and that locks go round in turn |
| `SwapPool` | the swap pool and page tables on the heap, each method proved to do what its step of the protocol does |
| `DelayList`, `Disks` | the delay list and its daemon; sector addressing and disk transfers |

`MAXPROC`, `SWAPSIZE` and the number of user processes are parameters.

## The invariants

`Invariant.Inv`, of the nucleus: every block is free, ready, running or in the queue of
exactly the semaphore it is tagged with; every queue is free of duplicates and none is
empty; an ordinary semaphore's queue is exactly as long as the semaphore is below zero,
a device's at most that, and the clock's semaphore is never positive; both counters
are exact; the live processes form one tree; the timer, the vectors and the times
charged are in bounds. `KernelCode.Kernel.Valid` adds that the linked structures on
the heap are proper and say the same.

`PagerMemory.Inv`, of the pager: each lock's value counts its holder and waiters; an
occupied frame belongs to a live process whose entry names it, unless the frame is
being turned over; every translation matches a valid entry; and each page's contents,
in its frame, on the disk or on the way between, equal a flat memory that holds
exactly the loaded blocks and the owner's stores.

## One repair

Freeing a process block blanks every field except its semaphore address
(phase1/pcb.c:46-66), while killing takes an empty semaphore address to mean "on the
ready queue" (phase2/exceptions.c:564). A block freed while blocked and then reused is
looked for on the wrong queue. The flag `wash` says whether freeing also clears the
address. With `wash` every theorem below holds of every run; without it they hold of
the runs in which each creation is handed a block with a clear address (`CleanSpawn`).
`Theorems.CreateIff` shows that this condition is exact.

What happens otherwise is not a matter of sequences, because the queues share their
links: the block is freed while it is still what the ready queue ends with, so the free
list takes that queue's place (`Merged.FreeStale`). From then on the scheduler takes
freed blocks, the one freed next first, and every process that was ready is lost
(`Merged.CreateAndDie`, from every state in which a creation is handed such a block and
the creator then dies). `Merged.ShippedGoesWrong` is such a run on the heap from the boot
on: the root terminates as the last process, and the machine, instead of halting, runs
the root again.

## Where the code is not what its comments say

- SYS1 stores its result after the caller's state has been copied
  (phase2/exceptions.c:101-146): nothing is claimed about the caller's register.
- SYS5 falls through from a vector already set to the next one
  (phase2/exceptions.c:484-524), so it may fill a vector that was not asked for; it
  kills exactly when every vector from the one asked for on is set (`SesvFatalIff`,
  `SesvForTlb`).
- A process killed while it waits for a device leaves its wait in the device's semaphore
  (phase2/exceptions.c:573-578): `DevAccount` counts it there.
- The flag that the interval is ending stays set until the clock ticks, and idle time is
  not taken off the interval (phase2/scheduler.c:80-81, 115-124): modelled as they are
  (`IntervalStep`, `TimerAtDispatch`), and no length of the interval in real time is claimed.
- An early interrupt's status is kept only when the semaphore is not positive and nobody
  waits (phase2/interrupts.c:204-221): statuses are not modelled.
- A dying process's entries are or-ed with the complement of the valid bit
  (phase3/vmIOsupport.c:437-438), so they keep that bit and lose their address
  (`Pager.Wrecked`). What is said of page tables is said of live processes.
- The delay list is initialised by a call that is commented out
  (phase3/initProc.c:151), and an insertion never goes ahead of the head
  (phase3/adl.c:178-182): `StaysSortedIff` and `NobodyOversleepsIff` say exactly when
  that matters.
- Command words keep the low 24 bits of a cylinder, so sector numbers that agree
  modulo 2^28 are one sector (`AliasesIff`), and the buffer of disk `d` is that of the
  tape of process `d + 1` (`BuffersCollideIff`, h/const.h:25-28).
- The device search has no bound; on a map with no bit on it stops at 32, because the
  shifted mask is then zero (`GetDeviceNumber`).

## What is assumed of the environment

The time of day never goes back and does not wrap. Semaphores that programs pass to SYS3
and SYS4 lie outside the device semaphores, are not null, start non-negative, and are
stored into only while nobody waits on them (event `Store`). SYS8 names a device that
exists. An interrupt is raised on lines 2 to 7 with a bit on in the device map of its
line. In the pager, disk and tape operations succeed, tapes have at least one block,
faults are on pages of segment 2, each process has an identifier of its own from 1 to 8,
and tape buffers are not used as disk buffers meanwhile. A disk reads the cylinder of its
seek command in all the bits above the command byte.

## Model

| member | source | states |
|---|---|---|
| Pcbs.InsertProcQ | phase1/pcb.c:147-166 | on any proper circular queue, the new process comes last and nothing else moves |
| Pcbs.HeadProcQ | phase1/pcb.c:174-183 | the first of the queue, null exactly when it is empty |
| Pcbs.OutProcQ | phase1/pcb.c:208-250 | the search ends; exactly the given process is taken out wherever it is, the others keep their order; null, and every link untouched, exactly when it is absent |
| Pcbs.RemoveProcQ | phase1/pcb.c:190-198 | takes the process that has been in longest; null exactly when the queue is empty |
| Pcbs.InsertChild | phase1/pcb.c:269-285 | the new child comes first, with sibling links mutually inverse |
| Pcbs.RemoveChild | phase1/pcb.c:293-318 | the newest child goes first, and loses its links; null exactly when there is none |
| Pcbs.OutChild | phase1/pcb.c:327-358 | exactly the given child leaves its parent's list, from any position, the others keep theirs; null exactly when it has no parent |
| PcbPool.Pool.InitPcbs | phase1/pcb.c:105-118 | a table of `n` distinct blocks, all free and blank |
| PcbPool.Pool.FreePcb | phase1/pcb.c:46-66 | the block goes to the end of the free list, blank except, as shipped, for its semaphore address |
| PcbPool.Pool.AllocPcb | phase1/pcb.c:74-98 | the block free longest, blank except for the semaphore address it had; null exactly when none is free |
| Asl.List.InitASL | phase1/asl.c:128-151 | no address has a queue, and all descriptors are spare |
| Asl.List.GetPrevSemd | phase1/asl.c:53-66 | the walk ends at the descriptor of the greatest listed address below the given one, or the dummy |
| Asl.List.AllocSemd | phase1/asl.c:94-121 | takes the top of the free stack, blank; null exactly when the stack is empty |
| Asl.List.InsertBlocked | phase1/asl.c:159-203 | appends to the queue of the address, opening one if there is none; reports full exactly when a new queue is needed and every descriptor is in use, and then changes nothing |
| Asl.List.RemoveBlocked | phase1/asl.c:210-243 | pops the head of the queue of the address, which is delisted exactly when it empties; null exactly when there is no such queue |
| Asl.List.OutBlocked | phase1/asl.c:250-281 | takes the process out of the queue it is tagged with, from any position, delisting an emptied queue; null exactly when it is blocked nowhere |
| Asl.List.HeadBlocked | phase1/asl.c:290-303 | who has waited longest on the address, without removing it |
| Lines.GetDeviceNumber | phase2/interrupts.c:241-270 | the number of the lowest bit on, 32 when none is |
| Lines.InReach | phase2/interrupts.c:192-201 | the lowest interrupting device of a line that has one leads to one of the device semaphores, never to the clock's or beyond |
| Lines.WhichInterrupt | phase2/interrupts.c:60-189 | the clock's line first, then the lowest pending line and on it the lowest interrupting device, whatever the bit maps; a terminal whose transmitter is the cause has the semaphore eight further |
| KernelCode.Kernel.Boot | phase2/initial.c:52-146 | on a fresh heap, exactly the booted state: one process, made of the first block, already running, and every invariant true |
| KernelCode.Kernel.GetNewJob | phase2/scheduler.c:53-94 | the real ready queue is popped and the job started, or the machine halts, panics or waits, as the specification's scheduler does |
| KernelCode.Kernel.ProcessJob | phase2/scheduler.c:104-127 | current process, start time, and the timer set to a quantum or to what is left of the interval |
| KernelCode.Kernel.CreateProcess | phase2/exceptions.c:120-151 | SYS1 on the real free list, tree links and ready queue; fails exactly when no block is free |
| KernelCode.Kernel.NukeItTilItPukes | phase2/exceptions.c:550-589 | the destructive recursion ends, and does to the heap exactly what killing the children one after another and then the process does to the sequences and the forest; its siblings keep their list |
| KernelCode.Kernel.Evict | phase2/exceptions.c:558-583 | a process to be killed is taken off the queue it is on, ready or blocked, and its semaphore or the soft-block count is given back |
| KernelCode.Kernel.NukeCurrent | phase2/exceptions.c:550-589 | killing the running process on the heap is the specification's kill of its family |
| KernelCode.Kernel.Terminate | phase2/exceptions.c:158-166 | SYS2: the family dies, then the scheduler |
| KernelCode.Kernel.Verhogen | phase2/exceptions.c:175-197 | SYS3 on the real word and queue |
| KernelCode.Kernel.Passeren | phase2/exceptions.c:205-233 | SYS4: either the caller goes on, or it is charged, queued on the semaphore, and another is dispatched |
| KernelCode.Kernel.SysFiveHandle | phase2/exceptions.c:479-529 | SYS5 with its fall-through, or death |
| KernelCode.Kernel.GetCpuTime | phase2/exceptions.c:253-275 | SYS6: the caller is charged up to the reading and the time it is given is its own |
| KernelCode.Kernel.WaitForClock | phase2/exceptions.c:283-316 | SYS7: the clock's semaphore falls; the caller blocks, or the machine panics |
| KernelCode.Kernel.WaitForIO | phase2/exceptions.c:323-359 | SYS8: the semaphore is that of the line, the device and, for terminals, the direction; the caller blocks exactly when it was not positive |
| KernelCode.Kernel.PassUpOrDie | phase2/exceptions.c:412-470 | a trap is passed up when its vector is set, and otherwise kills the family |
| KernelCode.Kernel.DrainClock | phase2/interrupts.c:100-115 | the loop ends with every process that waited for the clock on the ready queue, in order, and nobody else moved |
| KernelCode.Kernel.TimerInterrupt | phase2/interrupts.c:77-142 | the tick, or the end of a quantum, whichever the flag and the time left say |
| KernelCode.Kernel.DeviceInterrupt | phase2/interrupts.c:198-229 | the device's semaphore rises and its longest waiter, if any, becomes ready |
| KernelCode.Kernel.ReturnFromInterrupt | phase2/interrupts.c:340-353 | the interrupted process goes on with its start time renewed, and otherwise the scheduler |
| KernelCode.Kernel.Handle | phase2/exceptions.c:80-399 | every handler on the heap takes exactly the step of the state machine and keeps queues, tree links, free list, semaphore list and all invariants |
| KernelCode.Kernel.InterruptHandler | phase2/interrupts.c:60-229 | whatever the pending lines, what is served is the event they raise, as one step |
| Invariant.RoomToBlock | phase1/asl.c:173-178 | while a process is running, fewer addresses have queues than there are blocks, so a descriptor is always spare |
| Invariant.PassKeeps | phase2/exceptions.c:205-233 | a P that blocks keeps the whole invariant |
| Invariant.VerhogenKeeps | phase2/exceptions.c:175-197 | a V that wakes keeps the whole invariant |
| Invariant.WaitDeviceKeeps | phase2/exceptions.c:323-359 | blocking on a device keeps the whole invariant |
| Invariant.SignalDeviceKeeps | phase2/interrupts.c:201-222 | a device interrupt that wakes keeps the whole invariant |
| Invariant.TickKeeps | phase2/interrupts.c:97-120 | the tick, which also sets the clock's semaphore to zero, keeps the whole invariant |
| Invariant.SpawnKeeps | phase2/exceptions.c:120-151 | a creation from a block with a clear semaphore address keeps the whole invariant |
| Killing.KillAllRemoves | phase2/exceptions.c:550-589 | killing a list of processes frees exactly those, keeps the order of all others in every queue, raises each ordinary semaphore by its number of killed waiters and lowers the soft-block count by the killed device and clock waiters |
| Killing.NukeKeeps | phase2/exceptions.c:550-589 | so does killing the running process, of it and everything below it, and the invariant holds for the survivors |
| Ancestry.FamilyIsDescendants | phase2/exceptions.c:550-557 | who dies is exactly who is some number of generations below the running process, itself included |
| Safety.BootedInv | phase2/initial.c:117-143 | the invariant holds when the boot code has called the scheduler, repaired or not |
| Safety.RepairedIsClean | phase1/pcb.c:46-66 | with the repair, no creation is ever handed a block with an old semaphore address |
| Safety.StepKeeps | phase2/exceptions.c:80-399 | every system call, trap and interrupt keeps the invariant |
| Safety.RunKeeps | phase2/exceptions.c:80-399 | and so does every run: of any length with the repair, and as shipped if its creations are clean |
| Theorems.OnePlace | phase2/exceptions.c:109-360 | in every reachable state each block is in exactly one of: the free list, the ready queue, the processor, the queue of one semaphore |
| Theorems.CountersExact | phase2/scheduler.c:66-88 | the process count is the number of blocks not free; the soft-block count is the number of those blocked on device or clock semaphores |
| Theorems.NoSurprises | phase2/exceptions.c:175-312 | a V on a negative semaphore finds a waiter, a descriptor is spare for whoever blocks, and SYS7 always blocks: its panic is never reached |
| Theorems.CreateIff | phase1/pcb.c:46-66 | SYS1 keeps the invariant if and only if no block is free or the next free one has a clear semaphore address |
| Theorems.SchedulerVerdict | phase2/scheduler.c:53-94 | with nobody ready: halt if and only if no process is live; panic if and only if some are and all wait on ordinary semaphores; wait if and only if one waits for a device or the clock |
| Theorems.PanicIsDeadlock | phase2/scheduler.c:73-77 | after a panic no sequence of interrupts, however long, would have made anyone ready: the verdict stays panic after each |
| Theorems.WaitingCanEnd | phase2/scheduler.c:78-88 | in every wait somebody waits for a device or the clock, and there is an interrupt that can come and after which somebody runs |
| Shipped.StaleBlockIsReachable | phase1/pcb.c:46-66 | as shipped, seven events after the boot, all invariants still true, the next free block carries an old semaphore address |
| Merged.FreeStale | phase2/exceptions.c:564-587 | freeing the stale block, which was last on the ready queue, makes the ready queue's tail that of the free list: it holds the free list, and what it held before only if that is the same |
| Merged.KillBelow | phase2/exceptions.c:550-589 | from then on the destructive recursion still ends, and appends every process it kills, ready or blocked, to the two lists that are one |
| Merged.CreateAndDie | phase2/exceptions.c:120-166 | as shipped, from every state in which SYS1 is handed a block with an old address: if the creator then dies, the scheduler takes the process freed just after that block, and the ready queue holds freed blocks and nothing else |
| Merged.ShippedGoesWrong | phase2/scheduler.c:66-69 | as shipped, on the heap, eight events after the boot: the root terminates as the last process, and the scheduler takes the root, whose block is free, with a process count of zero |
| Ancestry.NoOrphans | phase2/exceptions.c:120-151 | in every state reached from the boot, every live process descends from the boot process, which is live too; each but the boot process has exactly one parent, and that parent is live |
| Ancestry.RunRooted | phase2/initial.c:117-143 | over every run the process tree keeps its one top, or is gone |
| Ancestry.RootEnds | phase2/exceptions.c:467-469 | in every state reached from the boot in which the boot process runs: if it terminates or dies, every block of the table is free and the machine halts |
| Ancestry.TreeSteps | phase2/exceptions.c:80-399 | a step leaves the tree, adds a child to the running process, or prunes the running process |
| Ancestry.ParentForLife | phase2/exceptions.c:550-589 | through any step a surviving process keeps its parent, which survives too |
| Accounts.StepBalances | phase2/interrupts.c:78-91 | a step charges nobody but the process that was running, and no more than the time since the last settlement; no vector once set changes |
| Accounts.RunBalances | phase2/exceptions.c:253-271 | over any run, all time charged is at most the time elapsed, each survivor's share is at most that, and its vectors stay |
| Accounts.ChargedSinceBoot | phase2/scheduler.c:104-127 | since the boot, no more time has been charged than has passed |
| Accounts.TwoReadings | phase2/exceptions.c:253-275 | two SYS6 results of one process, whatever happens between, differ by at most the difference in time of day |
| Accounts.SesvFatalIff | phase2/exceptions.c:479-529 | SYS5 kills if and only if all vectors from the one asked for on are set; otherwise it changes no vector but an unset one |
| Effects.PortsAreSemaphores | phase2/exceptions.c:326-332 | the device semaphores 0 to 47 and the ports (line, device, for terminals direction) correspond one to one |
| Effects.SameSemaphoreIff | phase2/interrupts.c:192-201 | two devices share a semaphore if and only if line, device and, on line 7, direction are equal |
| Effects.RaisedPort | phase2/interrupts.c:60-201 | the semaphore an interrupt raises is that of the lowest interrupting device of the lowest pending line |
| Queueing.QueueStep | phase2/exceptions.c:175-360 | every event, at every address: the dead leave the queue, the longest waiter leaves for a V or an interrupt there, all leave at a tick of the clock, the caller joins at the end if it has to wait there, and nothing else changes |
| Queueing.QueueIsLine | phase2/exceptions.c:175-360 | so over every run each queue is the line of those who came to wait, less the dead and those let go on, in the order they came |
| Queueing.WaitsAtPort | phase2/exceptions.c:323-359 | SYS8 makes the caller wait if and only if the semaphore of its line, device and direction is not positive, and there at the end of the queue |
| Queueing.InterruptWakes | phase2/interrupts.c:192-222 | an interrupt makes ready the longest waiter of its semaphore and leaves every other queue alone |
| Queueing.RaisedWakes | phase2/interrupts.c:60-222 | from the registers on: it wakes the longest waiter for the port of the lowest interrupting device of the lowest pending line, and nobody who waits for another port |
| Queueing.InterruptServesLine | phase2/interrupts.c:192-222 | from the boot on, over every run: whom it wakes is the first to have come, by SYS8 on that line, device and direction, of those who still wait |
| Queueing.VWakes | phase2/exceptions.c:175-193 | SYS3 puts the longest waiter last in the ready queue, and its caller goes on |
| Rota.OrderStep | phase2/scheduler.c:53-127 | every event: what it makes of the running process and those ready behind it, in their order; the first in that order runs |
| Tallies.WordStep | phase2/exceptions.c:175-233 | every event: a semaphore goes up by one for a V, down by one for a P, up by one for each of its waiters killed, is set by its program, and is otherwise unchanged |
| Tallies.WordAccount | phase2/exceptions.c:175-233 | over every run without a new setting: its value is what it was, plus the V's and the killed waiters, less the P's |
| Tallies.PassIff | phase2/exceptions.c:205-233 | SYS4 goes on if and only if the semaphore was positive; otherwise the caller is last in its queue |
| Tallies.PastAccount | phase2/exceptions.c:175-233 | over every run: those who got past a semaphore plus what it is still worth are what it was worth plus the V's, so no more get past, whoever dies |
| Tallies.DevStep | phase2/exceptions.c:283-360 | every event: which device semaphore or the clock's changes, and by how much; the death of waiters changes none |
| Tallies.DevAccount | phase2/interrupts.c:192-222 | over every run: a device's semaphore is what it was, plus its interrupts, less the waits for it |
| Traps.TlbTrapKillsIff | phase2/exceptions.c:412-470 | a TLB trap frees the running process if and only if its old TLB area is null, and changes nothing otherwise |
| Traps.ProgTrapKillsIff | phase2/exceptions.c:412-470 | a program trap does so by the old program trap area alone |
| Traps.SysTrapKillsIff | phase2/exceptions.c:412-470 | SYS9 and up do so by the old system call area alone |
| Traps.SesvForTlb | phase2/exceptions.c:479-529 | SYS5 for TLB traps, all six fields after it: the first of the three areas, from TLB on, whose old address was null gets both addresses; if none was, the caller is freed |
| Traps.SesvForProg | phase2/exceptions.c:479-529 | SYS5 for program traps, likewise of the two areas from there on |
| Traps.SesvForSys | phase2/exceptions.c:479-529 | SYS5 for system calls, likewise of its own area |
| Traps.SesvForOther | phase2/exceptions.c:479-529 | SYS5 for any other type frees the caller |
| Traps.SetThenTrapped | phase2/exceptions.c:412-529 | after SYS5 for a type that had no area, with an old area that is not null, that trap changes nothing |
| Traps.CreateMakes | phase2/exceptions.c:101-151 | SYS1 takes the block that has been free longest, gives it no time and no areas, puts it last in the ready queue and first among its creator's children; with no block free it changes nothing |
| Charges.StepTimed | phase2/interrupts.c:78-91 | every event: whether the running process is charged (it asks, is interrupted or has to wait), with exactly the time since its last start; when that start is renewed; and what becomes of timer, flag and time left |
| Charges.Reading | phase2/exceptions.c:253-275 | SYS6 answers the time on the sheet plus exactly the time since the last start |
| Charges.SheetAccount | phase2/exceptions.c:253-275 | over every run, the sheet of a survivor grows by exactly the intervals that ended while it ran |
| Charges.ElapsedAccount | phase2/scheduler.c:104-127 | over every run, time is conserved: what passes is what is charged, plus what each step loses, named as handler time, idle time and the last interval of the dead |
| Charges.TwoReadingsExact | phase2/exceptions.c:253-275 | two SYS6 of a process that ran all the while without an interrupt differ by exactly the time from the end of the first to the second |
| Charges.TimerAtDispatch | phase2/scheduler.c:104-127 | whoever is given the processor has the timer at the smaller of a quantum and the time left, and the flag set if that is less than a quantum |
| Charges.IntervalStep | phase2/scheduler.c:104-127 | the time left falls by exactly what is charged, is rounded up to zero at a dispatch, and is a whole interval after a tick |
| Charges.TimerVerdict | phase2/interrupts.c:97-141 | a timer interrupt is a tick if and only if the flag is set or the time left has run out; then the clock's waiters join the ready in order; otherwise the running process goes to the end of the ready queue |
| Charges.BootRuns | phase2/initial.c:117-143 | what the boot leaves: the first block runs, the others are free in order, a whole interval and a quantum before it |
| Fairness.StepAdvances | phase2/scheduler.c:53-94 | no step lets a ready process fall back, and each dispatch brings it one forward, to the processor, or finds it dead |
| Fairness.NoStarvation | phase2/scheduler.c:53-94 | in any run with more dispatches than there were processes ahead of it, a ready process has run or died |
| Fairness.QuantumBounds | phase2/scheduler.c:104-127 | in every state reached from the boot in which a process runs, the timer has been set to no more than a quantum and no less than zero |
| PagerLocks.StepLocks | phase3/vmIOsupport.c:110-169 | every step of every process keeps each lock a proper semaphore: its value counts its holder and its waiters |
| PagerLocks.MutualExclusion | phase3/initProc.c:105-110 | the swap pool, the backing store and each device have at most one holder |
| PagerLocks.NoDeadlock | phase3/vmIOsupport.c:388-412 | no chain of processes each waiting for the next ever closes, and none has more than four |
| PagerTheorems.StepKeeps | phase3/vmIOsupport.c:71-169 | every step of every process keeps locks, tables, memory contents and loading progress consistent |
| PagerTheorems.RunKeeps | phase3/vmIOsupport.c:71-169 | and so does every interleaving |
| PagerTheorems.InitialInv | phase3/initProc.c:94-147 | the tables and semaphores the boot code sets up satisfy it |
| PagerTheorems.PagingInvisible | phase3/vmIOsupport.c:109-169 | over every interleaving, a page of a live process, wherever it is, holds what it held before changed by exactly that process's own stores |
| PagerTheorems.RunFlat | phase3/vmIOsupport.c:109-169 | the flat memory the pages are compared with is changed by a process's own stores and nothing else |
| PagerTheorems.LoadsAreTrue | phase3/vmIOsupport.c:160-166 | from the start on, over every interleaving, a load that finds its translation reads the page's tape block (beyond the tape, what the disk held) changed by exactly the process's own stores, even while the page is being turned out |
| PagerTheorems.LoadedFlat | phase3/initProc.c:257-306 | whatever else happens while a process loads, what it has then is its tape, and after that its tape changed by its own stores |
| PagerTheorems.FetchesItsBlock | phase3/vmIOsupport.c:393-404 | a fault on a page `k` not yet stored into brings in block `k` of the process's tape |
| PagerTheorems.LoadedIsTape | phase3/initProc.c:257-306 | after loading, a page not stored into holds its tape block |
| PagerTheorems.Residency | phase3/vmIOsupport.c:117-166 | when nobody holds the swap pool, its slots and the valid entries of live processes are each other's inverse, no page has two frames, and every translation matches a valid entry |
| PagerTheorems.OneFrameEach | phase3/vmIOsupport.c:144-158 | at no time, not even in the middle of a fault, has a page two frames |
| PagerTheorems.EveryFrameOnce | phase3/vmIOsupport.c:358-364 | in any stretch of any run in which `SWAPSIZE` frames are chosen, whatever other steps come between, each frame is chosen exactly once |
| PagerProgress.OneStep | phase3/vmIOsupport.c:109-169 | a process that faults, loads or dies can take only the first step of what it has to do, and taking it leaves exactly the rest |
| PagerProgress.OthersStep | phase3/vmIOsupport.c:109-169 | no step of another process changes what it has to do |
| PagerProgress.OnItsWay | phase3/vmIOsupport.c:109-169 | over every run: until it is done, its own steps are exactly the first of what it had to do |
| PagerProgress.FaultServed | phase3/vmIOsupport.c:109-169 | over every run in which it takes all its steps: at the last of them it is back at its program, the entry of the page is valid, the frame holds the page's contents, and the swap pool is given back |
| PagerProgress.FaultEnds | phase3/vmIOsupport.c:109-169 | so every fault ends within twelve steps of its own process, whoever has the swap pool first |
| PagerProgress.DeathEnds | phase3/vmIOsupport.c:424-449 | every death ends within two steps of its own process: it is dead, has given the swap pool back and has no frame |
| PagerProgress.LoadEnds | phase3/initProc.c:244-309 | over every run: a load goes through the blocks of the tape in turn and then the process is at its program without the tape |
| PagerProgress.HowMuch | phase3/vmIOsupport.c:388-412 | how much there is to do: `5 n + 2` steps for a tape of `n` blocks, 8 for a fault that finds an empty frame, 12 for one that turns a page out |
| PagerProgress.CanGoOn | phase3/vmIOsupport.c:388-412 | whoever is in the middle of it and waits for no lock can take its next step, and no other |
| PagerProgress.TapesAreOwn | phase3/initProc.c:202-244 | each process loads from its own tape, under a mutex of its own |
| PagerTurns.QueueStep | phase3/vmIOsupport.c:110-169 | every step: the head of a lock's queue leaves as its holder exactly when the lock is given back, and whoever comes to wait joins at the end |
| PagerTurns.Turn | phase3/vmIOsupport.c:388-412 | over every run: a process with `n` others before it gains a place with each release and has the lock after `n + 1` |
| SwapPool.Tables.Test | phase3/initProc.c:94-128 | every slot is empty and every entry invalid, all entries distinct |
| SwapPool.SetUp | phase3/initProc.c:94-128 | which are the tables the protocol starts from |
| SwapPool.Tables.ChooseFrame | phase3/vmIOsupport.c:358-364 | the frame after the last one chosen, round and round |
| SwapPool.Tables.StrikeOut | phase3/vmIOsupport.c:434-446 | the loop empties exactly the dying process's slots; exactly the entries of pages in them lose their address, and keep their valid bit; the result tells whether there was one |
| SwapPool.PickFrame | phase3/vmIOsupport.c:112-114 | on the real counter, the protocol's step Choose |
| SwapPool.ClearFrame | phase3/vmIOsupport.c:117-131 | on the real tables, the protocol's step Clear: exactly the occupant's entry becomes invalid |
| SwapPool.MapFrame | phase3/vmIOsupport.c:143-166 | on the real tables, the protocol's step Map |
| SwapPool.SweepOut | phase3/vmIOsupport.c:434-446 | on the real tables, the protocol's step Sweep |
| DelayList.InsertedSorted | phase3/adl.c:153-187 | an insertion adds exactly its entry and keeps the list below the head sorted |
| DelayList.RemovedSorted | phase3/adl.c:194-217 | so does taking the head off |
| DelayList.StaysSortedIff | phase3/adl.c:178-182 | a sorted list stays sorted if and only if the new wake time is not before the head's |
| DelayList.NeverEarly | phase3/initProc.c:369-378 | one pass of the daemon wakes a prefix of the list, none of it before its time, and stops at a head that is not due |
| DelayList.NobodyOversleepsIff | phase3/initProc.c:369-378 | a pass leaves nobody who is due asleep if and only if the head was due or nobody was |
| DelayList.Oversleeper | phase3/adl.c:178-182 | two insertions, the earlier last, after which the real list is not sorted and a pass leaves somebody who is due asleep |
| DelayList.Adl.InitADL | phase3/adl.c:119-134 | an empty list, all nodes spare |
| DelayList.Adl.FindPreviousDelayd | phase3/adl.c:48-62 | the walk ends at the first node, from the head on, whose successor is not earlier than the given time |
| DelayList.Adl.InsertDelay | phase3/adl.c:153-187 | on the real list, one insertion; refused, with nothing changed, exactly when no node is spare; nodes are conserved and the list below the head stays sorted |
| DelayList.Adl.RemoveDelay | phase3/adl.c:194-217 | takes the head and keeps its node; nodes are conserved and the list below the head stays sorted; -1 exactly when the list is empty |
| DelayList.DaemonPass | phase3/initProc.c:369-380 | wakes exactly those due at the head, in order, and never panics; on the real list, nobody who is due is left if and only if the head was due or nobody was |
| Disks.SplitInjective | phase3/vmIOsupport.c:631-636 | no two sector numbers, of either sign, have the same head, sector and cylinder |
| Disks.DecodedIs | phase3/vmIOsupport.c:653-664 | reading the two command words back with the shifts they were made with gives the address of the sector number modulo 2^28 |
| Disks.AliasesIff | phase3/vmIOsupport.c:653-664 | two sector numbers give the same command words if and only if they agree modulo 2^28 |
| Disks.BuffersCollideIff | phase3/vmIOsupport.c:617-617 | the buffer of a disk overlaps that of a tape if and only if the tape is that of the process one higher |
| Disks.CopyPage | phase3/initProc.c:389-401 | the target page becomes a copy of the source page |
| Disks.Disk.DiskIO | phase3/vmIOsupport.c:642-680 | a write stores the page in the sector's block and no other; a read fetches that block and changes no block |
| Disks.GetFindsLastPut | phase3/vmIOsupport.c:642-674 | after any puts, a get of a sector finds the last one to it, or what was there before |

## Left out

- Virtual semaphores and their list (phase3/avsl.c, SYS11 and SYS12): removing from the middle of that list rewrites the wrong links and its "not found" is not the caller's, so the intended invariant does not hold as written.
- Shared segment 3 and faults beyond page 31: their backing-store slots are those of segment 2, and a signed segment number is never equal to 3.
- Device registers, character input and output, acknowledgements and status words: only which semaphore is raised, and which mutex brackets the routine.
- Contents of processor states, stacks, trap areas and status registers, and what is copied between them.
- Redirecting a privileged call from user mode to the program trap (phase2/exceptions.c:372-390): it is the event of a program trap.
- The guards at the start of a disk request (phase3/vmIOsupport.c:624-629): a refused request is the event `Die`.
- Disk and tape operations that fail.
- Wrap-around of the 32-bit time of day, and how long the pseudo-clock's interval is in real time.
- Times and counters are unbounded integers; the code's are 32 bits wide.
- The master semaphore, and the end of the boot process: ordinary uses of SYS1 to SYS4, which the nucleus model covers.
- Lines.WhichInterrupt: an interrupt on line 0 or 1 alone, for which the code goes on with line and device numbers it never set.
- KernelCode.Kernel.InterruptHandler: a pending device line with no device bit on, for which the code goes on with device 32 of the line.
- KernelCode.Kernel.Handle: without the repair it covers the creations that are handed a block with a clear semaphore address; what the others do to the heap is the subject of Merged.
- KernelCode.Kernel.WaitForIO: leaves out the device status that a caller who does not block is given.
- KernelCode.Kernel.PassUpOrDie: leaves out the copies between trap areas and processor states.
- KernelCode.Kernel.DeviceInterrupt: leaves out the status stored for the waiter or in `devStatus`, and the acknowledgement.
- Disks.Disk.DiskIO: takes sector numbers that are not negative; of a negative one the code would or together fields that overlap.
- Merged.CreateAndDie: is about the lists, the links and the process count; what the scheduler's choice then does to the current process is left out.
- PagerTheorems.PagingInvisible: loads and stores are single words, and the routines of terminals, printers and disks appear as the mutex they hold, not as accesses to pages.
- SwapPool: the page moves themselves, between frames and the disk, are steps of the protocol only.
- Debug stubs, test programs, makefiles and older copies of the sources.
