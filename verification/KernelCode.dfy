/** The nucleus on its own data structures: one heap of process blocks whose
    `next` and `prev` are shared by the free list, the ready queue and every
    semaphore queue. Each handler is proved to take the step of module Nucleus. */
module KernelCode {
  import opened Sequences
  import opened Pcbs
  import Asl
  import PcbPool
  import opened Nucleus
  import opened Invariant
  import opened Killing
  import opened Trees
  import opened Families
  import opened KernelFacts
  import Lines
  import Safety

  class Kernel {
    const base: nat                      // the address of semaphoreArray
    const wash: bool                     // whether freePcb is repaired
    const pool: PcbPool.Pool
    const asl: Asl.List
    const semaphoreArray: array<int>
    var readyQueue: Pcb?
    ghost var ready: seq<Pcb>            // what `readyQueue` holds
    var currentProcess: Pcb?
    var processCount: int
    var softBlockCount: int
    var words: map<nat, int>             // the memory words used as semaphores
    var startTOD: int
    var timeLeft: int
    var intTimerFlag: bool
    var timer: int
    var mode: Mode
    ghost var M: State                   // the state these structures stand for

    ghost const table: seq<Pcb>          // the process table, in the order it was built

    /** The boot sequence, up to the start of the first process. */
    constructor Boot(n: nat, address: nat, repaired: bool, memory: map<nat, int>, t: int)
      requires n > 0 && address > NULL && t >= 0 && forall a :: a in memory ==> memory[a] >= 0
      ensures |table| == n && fresh(table) && NoDup(table)
      ensures fresh(pool) && fresh(asl) && fresh(asl.table) && fresh(semaphoreArray)
      ensures M == Booted(table, base, wash, memory, t) && base == address && wash == repaired
      ensures Valid() && Planted(M.k.tree)
    {
      hide Asl.List.Valid, PcbPool.Pool.Valid, IsQueue, NoDup, Heap, Stands, Planted, Inv, Valid, Blank, Booted;
      hide PcbPool.Washed;
      base, wash, words := address, repaired, memory;
      var freeBlocks := new PcbPool.Pool.InitPcbs(n);
      pool, table := freeBlocks, freeBlocks.free;
      asl := new Asl.List.InitASL(n);
      semaphoreArray := new int[MAXSEMA];
      processCount, softBlockCount, currentProcess, startTOD := 0, 0, null, 0;
      readyQueue, ready := null, [];
      timeLeft, intTimerFlag, timer, mode := INTERVALTIME, false, QUANTUM, Running;
      M := Blank(freeBlocks.free, address, repaired, memory);
      new;
      StartUp(memory, t);
    }

    // ------------------------------------------------ the lists in the heap

    /** The free list, the ready queue and the semaphore queues are proper and
        share no block. */
    ghost predicate Heap()
      reads this`readyQueue, this`ready, pool, pool.free`next, pool.free`prev, ready`next, ready`prev
      reads asl, asl.table, asl.blocked`next, asl.blocked`prev, asl.blocked`semAdd
    {
      && pool.Valid() && IsQueue(readyQueue, ready) && asl.Valid()
      && Separate(pool.free, ready, asl.blocked)
    }

    ghost predicate Nowhere(p: Pcb)
      reads this`ready, pool`free, asl`blocked
    {
      p !in pool.free && p !in ready && p !in asl.blocked
    }

    /** Appends a process that is nowhere to the ready queue. */
    method PutReady(p: Pcb)
      requires Heap() && Nowhere(p)
      modifies `readyQueue, `ready, p`next, p`prev, ready`next, ready`prev
      ensures Heap() && ready == old(ready) + [p]
    {
      hide NoDup, IsQueue, Asl.List.Valid, PcbPool.Pool.Valid;
      readyQueue := InsertProcQ(readyQueue, p, ready);
      ready := ready + [p];
    }

    /** Takes the head of the ready queue; null when it is empty. */
    method TakeReady() returns (p: Pcb?)
      requires Heap()
      modifies `readyQueue, `ready, ready`next, ready`prev
      ensures Heap()
      ensures p == (if old(ready) == [] then null else old(ready)[0])
      ensures ready == if old(ready) == [] then [] else old(ready)[1..]
    {
      hide NoDup, IsQueue, Asl.List.Valid, PcbPool.Pool.Valid;
      readyQueue, p := RemoveProcQ(readyQueue, ready);
      ready := if ready == [] then [] else ready[1..];
    }

    /** Takes `p` out of the ready queue. */
    method DropReady(p: Pcb)
      requires Heap()
      modifies `readyQueue, `ready, ready`next, ready`prev
      ensures Heap() && ready == Without(old(ready), {p})
    {
      hide NoDup, IsQueue, Asl.List.Valid, PcbPool.Pool.Valid, Without;
      var out;
      ghost var before := ready;
      readyQueue, out := OutProcQ(readyQueue, p, ready);
      ready := Without(ready, {p});
      assert forall i {:trigger ready[i]} :: 0 <= i < |ready| ==> ready[i] in before;
    }

    /** Wakes the process that has waited longest on `a`; null when none does. */
    method Unblock(a: nat) returns (p: Pcb?)
      requires Heap()
      modifies asl`free, asl`spare, asl`listed, asl`queues, asl`blocked, asl.table
      modifies asl.blocked`next, asl.blocked`prev
      ensures Heap()
      ensures p == null <==> a !in old(asl.queues)
      ensures p == null ==> asl.queues == old(asl.queues) && asl.blocked == old(asl.blocked)
      ensures p != null ==>
        && old(asl.queues)[a] != [] && p == old(asl.queues)[a][0]
        && asl.queues == Asl.Requeue(old(asl.queues), a, old(asl.queues)[a][1..])
        && p in old(asl.blocked) && asl.blocked == old(asl.blocked) - {p} && Nowhere(p)
    {
      hide NoDup, IsQueue, Asl.List.Valid, PcbPool.Pool.Valid;
      p := asl.RemoveBlocked(a);
    }

    /** Blocks `p`, which is nowhere, on `a`. */
    method Block(a: nat, p: Pcb) returns (full: bool)
      requires Heap() && Nowhere(p)
      modifies asl`free, asl`spare, asl`listed, asl`queues, asl`blocked, asl.table
      modifies p`next, p`prev, p`semAdd, asl.blocked`next, asl.blocked`prev
      ensures Heap()
      ensures full <==> a !in old(asl.queues) && |old(asl.queues)| == asl.capacity
      ensures full ==> asl.queues == old(asl.queues) && asl.blocked == old(asl.blocked) && p.semAdd == old(p.semAdd)
      ensures !full ==> asl.queues == old(asl.queues)[a := Asl.Waiting(old(asl.queues), a) + [p]]
      ensures !full ==> asl.blocked == old(asl.blocked) + {p} && p.semAdd == a
    {
      hide NoDup, IsQueue, Asl.List.Valid, PcbPool.Pool.Valid;
      full := asl.InsertBlocked(a, p);
    }

    /** Takes `p` off the semaphore queue it may be on. */
    method Unhook(p: Pcb)
      requires Heap()
      modifies asl`free, asl`spare, asl`listed, asl`queues, asl`blocked, asl.table
      modifies asl.blocked`next, asl.blocked`prev
      ensures Heap() && asl.blocked == old(asl.blocked) - {p}
      ensures asl.queues == if p.semAdd in old(asl.queues)
        then Asl.Requeue(old(asl.queues), p.semAdd, Without(old(asl.queues)[p.semAdd], {p})) else old(asl.queues)
    {
      hide NoDup, IsQueue, Asl.List.Valid, PcbPool.Pool.Valid, Without;
      asl.SameSize();
      NotHooked(p);
      var out := asl.OutBlocked(p);
    }

    lemma NotHooked(p: Pcb)
      requires asl.Valid()
      ensures p !in asl.blocked ==> forall a :: a in asl.queues ==>
        asl.queues[a] != [] && Asl.Requeue(asl.queues, a, Without(asl.queues[a], {p})) == asl.queues
    {
      hide Asl.List.Valid, NoDup, IsQueue, Without;
      if p !in asl.blocked {
        forall a | a in asl.queues
          ensures asl.queues[a] != [] && Asl.Requeue(asl.queues, a, Without(asl.queues[a], {p})) == asl.queues
        {
          asl.InQueue(a);
          WithoutNothing(asl.queues[a], {p});
        }
      }
    }

    /** Frees `p`, which is nowhere. */
    method Free(p: Pcb)
      requires Heap() && Nowhere(p)
      modifies pool, p, pool.free`next, pool.free`prev
      ensures Heap() && pool.free == old(pool.free) + [p]
      ensures PcbPool.Washed(p) && p.semAdd == if wash then NULL else old(p.semAdd)
    {
      hide NoDup, IsQueue, Asl.List.Valid, PcbPool.Pool.Valid, PcbPool.Washed;
      pool.FreePcb(p, wash);
    }

    method Alloc() returns (p: Pcb?)
      requires Heap()
      modifies pool, pool.free`next, pool.free`prev, (if pool.free == [] then {} else {pool.free[0]})
      ensures Heap()
      ensures old(pool.free) == [] ==> p == null && pool.free == []
      ensures old(pool.free) != [] ==> p == old(pool.free)[0] && pool.free == old(pool.free)[1..]
      ensures p != null ==> PcbPool.Washed(p) && p.semAdd == old(p.semAdd)
      ensures p != null ==> Nowhere(p)
    {
      hide IsQueue, Asl.List.Valid, PcbPool.Washed;
      p := pool.AllocPcb();
    }

    // ------------------------------------------------ the state they stand for

    ghost predicate Registers()
      reads this
    {
      && M.k.base == base && M.k.wash == wash && M.k.words == words
      && M.k.cur == currentProcess && M.k.procCount == processCount && M.k.softBlock == softBlockCount
      && M.startTOD == startTOD && M.timeLeft == timeLeft && M.timerFlag == intTimerFlag
      && M.timer == timer && M.mode == mode
    }

    ghost predicate Stands()
      reads this, pool`free, asl`queues, semaphoreArray, M.k.semAdd.Keys`semAdd, M.time.Keys`time
      reads M.vec.Keys`oldTlb, M.vec.Keys`newTlb, M.vec.Keys`oldPrgm, M.vec.Keys`newPrgm, M.vec.Keys`oldSys
      reads M.vec.Keys`newSys
    {
      && Registers()
      && M.k.free == pool.free && M.k.ready == ready && M.k.asl == asl.queues && asl.capacity == |M.k.pcbs|
      && Devices(semaphoreArray, M.k.dev)
      && Records(M.k.semAdd, M.time, M.vec)
    }

    // -------------------------------------------------------------- scheduler

    method ProcessJob(newJob: Pcb, t: int)
      requires Stands()
      modifies `currentProcess, `startTOD, `timeLeft, `timer, `intTimerFlag, `mode, `M
      ensures Stands() && M == Nucleus.ProcessJob(old(M), newJob, t)
    {
      hide Records, Devices;
      currentProcess := newJob;
      startTOD := t;
      if timeLeft < 0 {
        timeLeft := 0;
      }
      if timeLeft < QUANTUM {
        timer := timeLeft;
        intTimerFlag := true;
      } else {
        timer := QUANTUM;
      }
      mode := Running;
      NoteJob(newJob, t);
    }

    ghost method NoteJob(newJob: Pcb, t: int)
      requires M.k.base == base && M.k.wash == wash && M.k.words == words && M.k.procCount == processCount &&
        M.k.softBlock == softBlockCount
      requires M.k.free == pool.free && M.k.ready == ready && M.k.asl == asl.queues && asl.capacity == |M.k.pcbs|
      requires Devices(semaphoreArray, M.k.dev) && Records(M.k.semAdd, M.time, M.vec)
      requires var n := Nucleus.ProcessJob(M, newJob, t);
        currentProcess == newJob && startTOD == t && timeLeft == n.timeLeft && timer == n.timer &&
          intTimerFlag == n.timerFlag && mode == n.mode
      modifies `M
      ensures Stands() && M == Nucleus.ProcessJob(old(M), newJob, t)
    {
      hide Records, Devices;
      M := Nucleus.ProcessJob(M, newJob, t);
    }

    method GetNewJob(t: int)
      requires Heap() && Stands()
      modifies `readyQueue, `ready, ready`next, ready`prev
      modifies `currentProcess, `startTOD, `timeLeft, `timer, `intTimerFlag, `mode, `M
      ensures Heap() && Stands() && M == Nucleus.GetNewJob(old(M), t)
    {
      hide Heap, Stands, IsQueue;
      var newJob := PopReady();
      if newJob == null {
        NoJob();
      } else {
        ProcessJob(newJob, t);
      }
    }

    method PopReady() returns (p: Pcb?)
      requires Heap() && Stands()
      modifies `readyQueue, `ready, ready`next, ready`prev, `M
      ensures Heap() && Stands() && (p == null <==> old(M.k.ready) == [])
      ensures p == null ==> ready == [] && M == old(M)
      ensures p != null ==> p == old(M.k.ready)[0] && M == old(M).(k := old(M.k).(ready := old(M.k.ready)[1..]))
    {
      hide Heap, Records, Devices, IsQueue;
      p := TakeReady();
      NoteReady();
    }

    ghost method NoteReady()
      requires Registers() && M.k.free == pool.free && M.k.asl == asl.queues && asl.capacity == |M.k.pcbs|
      requires Devices(semaphoreArray, M.k.dev) && Records(M.k.semAdd, M.time, M.vec)
      modifies `M
      ensures Stands() && M == old(M).(k := old(M.k).(ready := ready))
    {
      hide Records, Devices;
      M := M.(k := M.k.(ready := ready));
    }

    /** Nobody is ready: the end, a deadlock, or a wait for an interrupt. */
    method NoJob()
      requires Stands() && ready == []
      modifies `currentProcess, `timer, `intTimerFlag, `mode, `M
      ensures Stands() && forall t :: M == Nucleus.GetNewJob(old(M), t)
    {
      hide Records, Devices;
      currentProcess := null;
      if processCount == 0 {
        mode := Halted;
      } else if processCount > 0 && softBlockCount == 0 {
        mode := Panicked;
      } else if processCount > 0 && softBlockCount > 0 {
        timer := timeLeft;
        intTimerFlag := true;
        mode := Waiting;
      } else {
        mode := Lost;
      }
      M := Nucleus.GetNewJob(M, 0);
    }

    /** Charges the current process the time since it was last started. */
    method ChargeTime(t: int)
      requires Stands() && currentProcess != null && currentProcess in M.time
      modifies `timeLeft, `M, currentProcess`time
      ensures Stands() && M == Charge(old(M), t)
      ensures currentProcess in M.time && currentProcess.time == M.time[currentProcess]
    {
      hide Devices;
      var elapsedTime := t - startTOD;
      currentProcess.time := currentProcess.time + elapsedTime;
      timeLeft := timeLeft - elapsedTime;
      M := Charge(M, t);
    }


    lemma Asleep(a: nat)
      requires Heap()
      ensures a in asl.queues ==> asl.queues[a] != [] && Asl.Waiting(asl.queues, a) == asl.queues[a]
      ensures a !in asl.queues ==> Asl.Waiting(asl.queues, a) == []
    {
      hide IsQueue, PcbPool.Pool.Valid, Separate;
      if a in asl.queues {
        asl.SameSize();
        asl.InQueue(a);
      }
    }

    method Stamp(p: Pcb, a: nat)
      requires Records(M.k.semAdd, M.time, M.vec)
      modifies p`semAdd
      ensures Records(M.k.semAdd[p := a], M.time, M.vec)
    {
      p.semAdd := a;
    }

    /** Moves the process that has waited longest on `a` to the ready queue;
        null when nobody waits there. */
    method Rouse(a: nat) returns (p: Pcb?)
      requires Heap() && Records(M.k.semAdd, M.time, M.vec)
      modifies `readyQueue, `ready, ready`next, ready`prev
      modifies asl`free, asl`spare, asl`listed, asl`queues, asl`blocked, asl.table
      modifies asl.blocked`next, asl.blocked`prev, asl.blocked`semAdd
      ensures Heap()
      ensures p == null <==> Asl.Waiting(old(asl.queues), a) == []
      ensures asl.blocked <= old(asl.blocked) && Elements(ready) <= Elements(old(ready)) + old(asl.blocked)
      ensures p == null ==> asl.queues == old(asl.queues) && ready == old(ready) && Records(M.k.semAdd, M.time, M.vec)
      ensures p != null ==>
        && var q := Asl.Waiting(old(asl.queues), a);
        && p == q[0] && asl.queues == Asl.Requeue(old(asl.queues), a, q[1..])
        && ready == old(ready) + [p] && Records(M.k.semAdd[p := NULL], M.time, M.vec)
    {
      hide Records, IsQueue, Heap, Asl.Requeue;
      Asleep(a);
      p := Unblock(a);
      if p != null {
        Admitted(p);
        assert Elements(ready) == Elements(old(ready)) + {p};
      }
    }

    /** Clears the address of a process that is nowhere and makes it ready. */
    method Admitted(p: Pcb)
      requires Heap() && Nowhere(p) && Records(M.k.semAdd, M.time, M.vec)
      modifies `readyQueue, `ready, p`semAdd, p`next, p`prev, ready`next, ready`prev
      ensures Heap() && ready == old(ready) + [p] && Records(M.k.semAdd[p := NULL], M.time, M.vec)
    {
      hide Heap, Records, IsQueue;
      Stamp(p, NULL);
      PutReady(p);
    }

    method WakeOne(a: nat) returns (p: Pcb?)
      requires Heap() && Stands()
      modifies `readyQueue, `ready, `M, ready`next, ready`prev
      modifies asl`free, asl`spare, asl`listed, asl`queues, asl`blocked, asl.table
      modifies asl.blocked`next, asl.blocked`prev, asl.blocked`semAdd
      ensures Heap() && Stands()
      ensures p == null <==> Queue(old(M.k), a) == []
      ensures asl.blocked <= old(asl.blocked) && Elements(ready) <= Elements(old(ready)) + old(asl.blocked)
      ensures M == if p == null then old(M) else old(M.(k := Wake(M.k, a)))
    {
      hide Heap, Records, Devices, IsQueue;
      p := Rouse(a);
      if p != null {
        NoteWoken(a);
      }
    }

    ghost method NoteWoken(a: nat)
      requires Registers() && M.k.free == pool.free && asl.capacity == |M.k.pcbs| && Queue(M.k, a) != []
      requires asl.queues == Asl.Requeue(M.k.asl, a, Queue(M.k, a)[1..]) && ready == M.k.ready + [Queue(M.k, a)[0]]
      requires Devices(semaphoreArray, M.k.dev) && Records(M.k.semAdd[Queue(M.k, a)[0] := NULL], M.time, M.vec)
      modifies `M
      ensures Stands() && M == old(M).(k := Wake(old(M.k), a))
    {
      hide Records, Devices, Asl.Requeue;
      M := M.(k := Wake(M.k, a));
    }

    /** Blocks the current process, if a descriptor can be had. */
    method Park(a: nat, p: Pcb) returns (full: bool)
      requires Heap() && Nowhere(p) && Records(M.k.semAdd, M.time, M.vec)
      modifies asl`free, asl`spare, asl`listed, asl`queues, asl`blocked, asl.table
      modifies p`next, p`prev, p`semAdd, asl.blocked`next, asl.blocked`prev
      ensures Heap()
      ensures full <==> a !in old(asl.queues) && |old(asl.queues)| == asl.capacity
      ensures full ==> asl.queues == old(asl.queues) && Records(M.k.semAdd, M.time, M.vec)
      ensures !full ==> asl.queues == old(asl.queues)[a := Asl.Waiting(old(asl.queues), a) + [p]]
      ensures !full ==> Records(M.k.semAdd[p := a], M.time, M.vec)
    {
      hide IsQueue, Asl.List.Valid, PcbPool.Pool.Valid, Separate, Heap, Dated, Vectored;
      full := Block(a, p);
    }

    method Suspend(a: nat)
      requires Heap() && Stands() && currentProcess != null && Nowhere(currentProcess)
      modifies `currentProcess, `M, asl`free, asl`spare, asl`listed, asl`queues, asl`blocked, asl.table
      modifies currentProcess`next, currentProcess`prev, currentProcess`semAdd, asl.blocked`next, asl.blocked`prev
      ensures Heap() && Stands() && M == old(M.(k := BlockCur(M.k, a)))
    {
      hide Heap, Records, Devices, IsQueue;
      var full := Park(a, currentProcess);
      NoteBlocked(a);
    }

    method NoteBlocked(a: nat)
      requires Registers() && currentProcess != null && M.k.free == pool.free && M.k.ready == ready
      requires asl.capacity == |M.k.pcbs| && asl.queues == BlockCur(M.k, a).asl
      requires Devices(semaphoreArray, M.k.dev) && Records(BlockCur(M.k, a).semAdd, M.time, M.vec)
      modifies `currentProcess, `M
      ensures Stands() && M == old(M).(k := BlockCur(old(M.k), a))
    {
      hide Records, Devices;
      currentProcess := null;
      M := M.(k := BlockCur(M.k, a));
    }

    // ---------------------------------------------------------- at rest

    ghost predicate Valid()
      reads this, pool, asl, semaphoreArray, asl.table, asl.blocked, pool.free, ready
      reads M.k.pcbs, M.k.semAdd.Keys, M.time.Keys, M.vec.Keys
    {
      Inv(M) && Heap() && Stands()
    }

    /** The structures are sound and stay within the process table. */
    ghost predicate Sound()
      reads this, pool, asl, semaphoreArray, asl.table, asl.blocked, pool.free, ready
      reads M.k.semAdd.Keys, M.time.Keys, M.vec.Keys
    {
      && Heap() && Stands()
      && asl.blocked <= M.k.pcbs && Elements(ready) <= M.k.pcbs
      && |M.k.dev| == semaphoreArray.Length == MAXSEMA && M.k.base == base
      && (currentProcess != null ==> currentProcess in M.k.pcbs && Nowhere(currentProcess))
      && M.k.cur == currentProcess && M.mode == mode
    }

    /** Sound, with a process running. */
    ghost predicate OnDuty()
      reads this, pool, asl, semaphoreArray, asl.table, asl.blocked, pool.free, ready
      reads M.k.semAdd.Keys, M.time.Keys, M.vec.Keys
    {
      Sound() && mode == Running && currentProcess != null && currentProcess in M.time && currentProcess in M.vec
    }

    lemma AtRest()
      requires Valid()
      ensures Sound() && (mode == Running ==> OnDuty())
    {
      hide Inv, Asl.List.Valid, NoDup, IsQueue, Separate, Records, PcbPool.Pool.Valid;
      WhoIsBlocked();
      WhoIsReady();
      Widths();
    }

    /** The blocked processes are live, and none of them is running. */
    lemma WhoIsBlocked()
      requires Inv(M) && asl.Valid() && asl.queues == M.k.asl
      ensures forall p {:trigger p in asl.blocked} :: p in asl.blocked ==> p in M.k.pcbs && p != M.k.cur
    {
      hide Semaphores, OneTree, FreeOk, Placed, ModeOk, Sheets, NoDup;
      asl.SameSize();
      hide Asl.List.Valid;
      forall p {:trigger p in asl.blocked} | p in asl.blocked
        ensures p in M.k.pcbs && p != M.k.cur
      {
        assert p in Queue(M.k, p.semAdd);
      }
    }

    lemma WhoIsReady()
      requires Inv(M)
      ensures forall p :: p in M.k.ready ==> p in M.k.pcbs && p != M.k.cur
      ensures M.k.cur != null ==> M.k.cur in M.k.pcbs && M.k.cur !in M.k.free
    {
      hide Semaphores, OneTree, FreeOk, Placed, AslOk, ModeOk, Sheets, NoDup;
    }

    lemma Widths()
      requires Inv(M)
      ensures |M.k.dev| == MAXSEMA && (M.mode == Running ==> M.k.cur != null)
      ensures M.vec.Keys == M.time.Keys == M.k.pcbs
    {
      hide Places, OneTree, NoDup;
    }

    method AddToWord(a: nat, d: int) returns (value: int)
      requires Stands()
      modifies `words, `M
      ensures Stands() && M == old(M.(k := AddWord(M.k, a, d))) && value == Word(M.k, a)
      ensures currentProcess == M.k.cur
    {
      hide Records, Devices;
      value := (if a in words then words[a] else 0) + d;
      words := words[a := value];
      M := M.(k := AddWord(M.k, a, d));
    }

    method Verhogen(a: nat)
      requires OnDuty() && (Word(M.k, a) < 0 ==> Queue(M.k, a) != [])
      modifies this, asl, asl.table, M.k.pcbs`next, M.k.pcbs`prev, M.k.pcbs`semAdd
      ensures Heap() && Stands() && M == Nucleus.Verhogen(old(M), a)
    {
      hide Heap, Stands, Wake, IsQueue, NoDup;
      Footing();
      hide Sound, OnDuty, Nowhere;
      var value := AddToWord(a, 1);
      if value <= 0 {
        var process := WakeOne(a);
        assert process != null;
      }
    }

    method Passeren(a: nat, t1: int, t2: int)
      requires OnDuty()
      modifies this, asl, asl.table, M.k.pcbs`next, M.k.pcbs`prev, M.k.pcbs`semAdd, M.k.pcbs`time
      ensures Heap() && Stands() && M == Nucleus.Passeren(old(M), a, t1, t2)
    {
      hide Records, Devices, Asl.List.Valid, PcbPool.Pool.Valid, Separate, IsQueue, Heap, NoDup, BlockCur, Charge;
      hide Nucleus.GetNewJob, Registers, Stands;
      Footing();
      hide Sound, OnDuty, Nowhere;
      var value := AddToWord(a, -1);
      if value < 0 {
        ChargeAfter(old(M), M.k, t1);
        SuspendOn(a, t1);
        GetNewJob(t2);
      }
    }

    /** What a handler of the current process starts from. */
    lemma Footing()
      requires OnDuty()
      ensures Heap() && Stands() && currentProcess != null && currentProcess in M.time && Nowhere(currentProcess)
      ensures asl.blocked <= M.k.pcbs && Elements(ready) <= M.k.pcbs && currentProcess in M.k.pcbs
      ensures M.k.base == base && M.k.cur == currentProcess && |M.k.dev| == semaphoreArray.Length == MAXSEMA
    {
      hide Heap, Stands;
    }

    /** Charges the current process up to now and blocks it. */
    method SuspendOn(a: nat, t: int)
      requires Heap() && Stands() && currentProcess != null && currentProcess in M.time && Nowhere(currentProcess)
      modifies `currentProcess, `timeLeft, `M, asl`free, asl`spare, asl`listed, asl`queues, asl`blocked, asl.table
      modifies currentProcess`time, currentProcess`next, currentProcess`prev, currentProcess`semAdd
      modifies asl.blocked`next, asl.blocked`prev
      ensures Heap() && Stands() && M == Charge(old(M), t).(k := BlockCur(old(M.k), a))
    {
      hide Records, Devices, Asl.List.Valid, PcbPool.Pool.Valid, Separate, IsQueue, Heap, NoDup, BlockCur;
      ChargeTime(t);
      Suspend(a);
    }

    method GetCpuTime(t1: int, t2: int) returns (time: int)
      requires OnDuty()
      modifies `timeLeft, `startTOD, `M, M.k.pcbs`time
      ensures Heap() && Stands() && M == Nucleus.GetCpuTime(old(M), t1, t2)
      ensures currentProcess == old(currentProcess) && currentProcess in M.time && time == M.time[currentProcess]
    {
      hide Records, Devices, Asl.List.Valid, PcbPool.Pool.Valid, Separate, IsQueue, Heap, NoDup, Registers;
      var process := currentProcess;
      ChargeTime(t1);
      time := process.time;
      Restart(t2);
    }

    method Restart(t: int)
      requires Stands()
      modifies `startTOD, `M
      ensures Stands() && M == old(M).(startTOD := t, clock := t) && currentProcess == old(currentProcess)
    {
      hide Records, Devices;
      startTOD := t;
      M := M.(startTOD := t, clock := t);
    }

    method AddToSemaphore(i: nat, d: int) returns (value: int)
      requires Stands() && i < semaphoreArray.Length
      modifies `M, semaphoreArray
      ensures Stands() && currentProcess == old(M.k.cur) && i < |old(M.k.dev)| &&
        M == old(M).(k := AddDev(old(M.k), i, d))
      ensures value == old(M.k.dev)[i] + d
    {
      value := semaphoreArray[i] + d;
      semaphoreArray[i] := value;
      M := M.(k := AddDev(M.k, i, d));
      hide Records;
    }

    /** P on a device semaphore: tells whether the caller has to wait. */
    method WaitDevice(i: nat, t1: int, t2: int) returns (blocked: bool)
      requires OnDuty() && i < semaphoreArray.Length
      modifies this, semaphoreArray, asl, asl.table, M.k.pcbs`next, M.k.pcbs`prev, M.k.pcbs`semAdd, M.k.pcbs`time
      ensures Heap() && Stands() && i < |old(M.k.dev)| && M == Nucleus.WaitDevice(old(M), i, t1, t2)
      ensures blocked <==> old(M.k.dev[i]) - 1 < 0
    {
      hide Records, Devices, Asl.List.Valid, PcbPool.Pool.Valid, Separate, IsQueue, Heap, NoDup, BlockCur, Charge;
      hide Nucleus.GetNewJob, Registers, AddDev, Stands;
      Footing();
      hide Sound, OnDuty, Nowhere;
      WaitDeviceIs(M, i, t1, t2);
      hide Nucleus.WaitDevice;
      var value := AddToSemaphore(i, -1);
      blocked := value < 0;
      if blocked {
        ChargeAfter(old(M), M.k, t1);
        YieldToDevice(i, t1, t2);
      }
    }

    method YieldToDevice(i: nat, t1: int, t2: int)
      requires Heap() && Stands() && currentProcess != null && currentProcess in M.time && Nowhere(currentProcess)
      requires M.k.base == base
      modifies this, asl`free, asl`spare, asl`listed, asl`queues, asl`blocked, asl.table
      modifies currentProcess`time, currentProcess`next, currentProcess`prev, currentProcess`semAdd
      modifies asl.blocked`next, asl.blocked`prev, ready`next, ready`prev
      ensures Heap() && Stands()
      ensures M == Nucleus.GetNewJob(
        Charge(old(M), t1).(k := BlockCur(old(M.k), DevAddr(old(M.k), i)).(softBlock := old(M.k).softBlock + 1)), t2)
    {
      hide Records, Devices, Asl.List.Valid, PcbPool.Pool.Valid, Separate, IsQueue, Heap, NoDup, BlockCur, Charge;
      hide Registers, Nucleus.GetNewJob;
      SuspendOnDevice(i, t1);
      GetNewJob(t2);
    }

    method SuspendOnDevice(i: nat, t: int)
      requires Heap() && Stands() && currentProcess != null && currentProcess in M.time && Nowhere(currentProcess)
      requires M.k.base == base
      modifies `currentProcess, `timeLeft, `softBlockCount, `M
      modifies asl`free, asl`spare, asl`listed, asl`queues, asl`blocked, asl.table
      modifies currentProcess`time, currentProcess`next, currentProcess`prev, currentProcess`semAdd
      modifies asl.blocked`next, asl.blocked`prev
      ensures Heap() && Stands()
      ensures M == Charge(old(M), t).(
        k := BlockCur(old(M.k), DevAddr(old(M.k), i)).(softBlock := old(M.k).softBlock + 1))
    {
      hide Records, Devices, Asl.List.Valid, PcbPool.Pool.Valid, Separate, IsQueue, Heap, NoDup, BlockCur, Charge;
      hide Registers;
      Safety.BlockFields(M.k, DevAddr(M.k, i));
      SuspendOn(base + WORDLEN * i, t);
      AddToSoftBlock(1);
    }

    method AddToSoftBlock(d: int)
      requires Stands()
      modifies `softBlockCount, `M
      ensures Stands() && M == old(M).(k := old(M.k).(softBlock := old(M.k).softBlock + d))
    {
      hide Records, Devices;
      softBlockCount := softBlockCount + d;
      M := M.(k := M.k.(softBlock := M.k.softBlock + d));
    }

    /** SYS7; the panic is what the handler would do if it did not block. */
    method WaitForClock(t1: int, t2: int)
      requires OnDuty()
      modifies this, semaphoreArray, asl, asl.table, M.k.pcbs`next, M.k.pcbs`prev, M.k.pcbs`semAdd, M.k.pcbs`time
      ensures Heap() && Stands() && CLCKTIMER < |old(M.k.dev)| && M == Nucleus.WaitForClock(old(M), t1, t2)
    {
      hide Records, Devices, Heap, Registers, Nucleus.WaitDevice;
      var blocked := WaitDevice(CLCKTIMER, t1, t2);
      if !blocked {
        Panic();
      }
    }

    method Panic()
      requires Stands()
      modifies `mode, `M
      ensures Stands() && M == old(M).(mode := Panicked)
    {
      hide Records, Devices;
      mode := Panicked;
      M := M.(mode := Panicked);
    }

    /** SYS8 on a device of an interrupt line. */
    method WaitForIO(line: nat, device: nat, read: bool, t1: int, t2: int)
      requires OnDuty()
      requires DISKINT <= line <= TERMINT && device < DEVPERINT
      modifies this, semaphoreArray, asl, asl.table, M.k.pcbs`next, M.k.pcbs`prev, M.k.pcbs`semAdd, M.k.pcbs`time
      ensures Heap() && Stands() && DeviceIndex(line, device, !read) < |old(M.k.dev)|
      ensures M == Nucleus.WaitDevice(old(M), DeviceIndex(line, device, !read), t1, t2)
    {
      hide Records, Devices, Heap, Registers, Nucleus.WaitDevice;
      var semDev := DEVPERINT * (line - DISKINT) + device;
      if !read && line == TERMINT {
        semDev := semDev + DEVPERINT;
      }
      var blocked := WaitDevice(semDev, t1, t2);
    }

    // -------------------------------------------------------------- interrupts

    method ReturnFromInterrupt(t: int)
      requires Heap() && Stands()
      modifies this, ready`next, ready`prev
      ensures Heap() && Stands() && M == Nucleus.ReturnFromInterrupt(old(M), t)
    {
      hide Records, Devices, Asl.List.Valid, PcbPool.Pool.Valid, Separate, IsQueue, Heap, NoDup, Nucleus.GetNewJob;
      if currentProcess != null {
        Restart(t);
      } else {
        GetNewJob(t);
      }
    }

    /** Wakes one of those who wait for the clock, `j` having been woken before. */
    method WakeTicked(ghost s: State, ghost j: nat) returns (process: Pcb?)
      requires Heap() && Stands() && s.k.base == base
      requires var n := |Queue(s.k, DevAddr(s.k, CLCKTIMER))|; j <= n && M == s.(k := PartTick(s.k, j))
      modifies `readyQueue, `ready, `M, ready`next, ready`prev
      modifies asl`free, asl`spare, asl`listed, asl`queues, asl`blocked, asl.table
      modifies asl.blocked`next, asl.blocked`prev, asl.blocked`semAdd
      ensures Heap() && Stands()
      ensures asl.blocked <= old(asl.blocked) && Elements(ready) <= Elements(old(ready)) + old(asl.blocked)
      ensures process == null <==> j == |Queue(s.k, DevAddr(s.k, CLCKTIMER))|
      ensures process == null ==> M == old(M)
      ensures process != null ==> Queue(PartTick(s.k, j), DevAddr(s.k, CLCKTIMER)) != []
      ensures process != null ==> M == s.(k := Wake(PartTick(s.k, j), DevAddr(s.k, CLCKTIMER)))
    {
      hide Records, Devices, Asl.List.Valid, PcbPool.Pool.Valid, Separate, IsQueue, Heap, NoDup, Registers, Wake;
      hide PartTick;
      PartTickQueue(s.k, j);
      process := WakeOne(base + WORDLEN * CLCKTIMER);
    }

    /** Wakes everyone who waits for the clock. */
    method DrainClock()
      requires Heap() && Stands() && asl.blocked <= M.k.pcbs && Elements(ready) <= M.k.pcbs
      requires M.k.base == base && ProperQueues(M.k)
      modifies this, asl, asl.table, M.k.pcbs`next, M.k.pcbs`prev, M.k.pcbs`semAdd
      ensures Heap() && Stands() && M == old(M.(k := Tick(M.k)))
      ensures Elements(ready) <= old(M.k.pcbs)
    {
      hide Asl.List.Valid, PcbPool.Pool.Valid, Separate, IsQueue, Heap, Stands, NoDup, Wake, Tick, PartTick;
      hide ProperQueues;
      ghost var s := M;
      ghost var j := 0;
      Clocked(s.k);
      PartTickStart(s.k);
      var process := WakeTicked(s, j);
      while process != null
        invariant Heap() && Stands()
        invariant asl.blocked <= s.k.pcbs && Elements(ready) <= s.k.pcbs
        invariant process == null ==> j == |Queue(s.k, DevAddr(s.k, CLCKTIMER))| && M == s.(k := PartTick(s.k, j))
        invariant process != null ==> j < |Queue(s.k, DevAddr(s.k, CLCKTIMER))|
        invariant process != null ==> Queue(PartTick(s.k, j), DevAddr(s.k, CLCKTIMER)) != []
        invariant process != null ==> M == s.(k := Wake(PartTick(s.k, j), DevAddr(s.k, CLCKTIMER)))
        decreases |Queue(s.k, DevAddr(s.k, CLCKTIMER))| - j
      {
        AddToSoftBlock(-1);
        PartTickNext(s.k, j);
        j := j + 1;
        process := WakeTicked(s, j);
      }
      PartTickEnd(s.k);
    }

    method EnterInterrupt(t: int)
      requires Sound() && (currentProcess != null ==> currentProcess in M.time)
      modifies `timeLeft, `M, (if currentProcess == null then {} else {currentProcess})`time
      ensures Heap() && Stands() && M == Charge(old(M), t)
      ensures M.k == old(M.k) && M.timerFlag == intTimerFlag && M.timeLeft == timeLeft
    {
      hide Records, Devices, Asl.List.Valid, PcbPool.Pool.Valid, Separate, IsQueue, Heap, NoDup;
      if currentProcess != null {
        ChargeTime(t);
      }
    }

    method ResetClock()
      requires Stands() && CLCKTIMER < semaphoreArray.Length
      modifies `timer, `timeLeft, `intTimerFlag, `M, semaphoreArray
      ensures Stands() && CLCKTIMER < |old(M.k.dev)| && currentProcess == M.k.cur
      ensures M == old(M).(k := old(M.k).(dev := old(M.k.dev)[CLCKTIMER := 0]), timer := QUANTUM,
                           timeLeft := INTERVALTIME, timerFlag := false)
    {
      hide Records, Registers;
      ClearClock();
      hide Stands;
      Reload();
    }

    method ClearClock()
      requires Stands() && CLCKTIMER < semaphoreArray.Length
      modifies `M, semaphoreArray
      ensures Stands() && CLCKTIMER < |old(M.k.dev)| &&
        M == old(M).(k := old(M.k).(dev := old(M.k.dev)[CLCKTIMER := 0]))
    {
      hide Records;
      semaphoreArray[CLCKTIMER] := 0;
      M := M.(k := M.k.(dev := M.k.dev[CLCKTIMER := 0]));
    }

    method Reload()
      requires Stands()
      modifies `timer, `timeLeft, `intTimerFlag, `M
      ensures Stands() && currentProcess == M.k.cur
      ensures M == old(M).(timer := QUANTUM, timeLeft := INTERVALTIME, timerFlag := false)
    {
      hide Records, Devices;
      timer := QUANTUM;
      timeLeft := INTERVALTIME;
      intTimerFlag := false;
      M := M.(timer := QUANTUM, timeLeft := INTERVALTIME, timerFlag := false);
    }

    /** The end of a quantum: back into the queue. */
    method Preempt()
      requires Heap() && Stands() && (currentProcess != null ==> Nowhere(currentProcess))
      modifies `readyQueue, `ready, `currentProcess, `timer, `M, ready`next, ready`prev
      modifies (if currentProcess == null then {} else {currentProcess})`next
      modifies (if currentProcess == null then {} else {currentProcess})`prev
      ensures Heap() && Stands() && M == old(M).(k := Nucleus.Preempt(old(M.k)), timer := QUANTUM)
      ensures ready == old(ready) + if old(currentProcess) == null then [] else [old(currentProcess)]
    {
      hide Records, Devices, Asl.List.Valid, PcbPool.Pool.Valid, Separate, IsQueue, Heap, NoDup;
      if currentProcess != null {
        PutReady(currentProcess);
      }
      Depose();
    }

    method Depose()
      requires currentProcess != null ==> ready == M.k.ready + [currentProcess]
      requires Records(M.k.semAdd, M.time, M.vec) && Devices(semaphoreArray, M.k.dev) && Registers()
      requires M.k.free == pool.free && M.k.asl == asl.queues && asl.capacity == |M.k.pcbs|
      requires currentProcess == null ==> M.k.ready == ready
      modifies `currentProcess, `timer, `M
      ensures Stands() && M == old(M).(k := Nucleus.Preempt(old(M.k)), timer := QUANTUM)
    {
      hide Records, Devices;
      currentProcess := null;
      timer := QUANTUM;
      M := M.(k := Nucleus.Preempt(M.k), timer := QUANTUM);
    }

    method TimerInterrupt(t1: int, t2: int)
      requires Sound() && (currentProcess != null ==> currentProcess in M.time) && ProperQueues(M.k)
      modifies this, semaphoreArray, asl, asl.table, M.k.pcbs`next, M.k.pcbs`prev, M.k.pcbs`semAdd, M.k.pcbs`time
      ensures Heap() && Stands() && CLCKTIMER < |old(M.k.dev)| && M == Nucleus.TimerInterrupt(old(M), t1, t2)
    {
      hide Heap, Stands, Nucleus.GetNewJob, Nucleus.ReturnFromInterrupt, Nucleus.Preempt, Charge, Tick, ProperQueues;
      EnterInterrupt(t1);
      if intTimerFlag || timeLeft < 0 {
        TickDevices(M.k);
        DrainClock();
        ResetClock();
        ReturnFromInterrupt(t2);
      } else {
        Preempt();
        GetNewJob(t2);
      }
    }

    /** A V on device semaphore `i`, for whoever waits there. */
    method DeviceInterrupt(i: nat, t1: int, t2: int)
      requires Sound() && (currentProcess != null ==> currentProcess in M.time) && i < semaphoreArray.Length
      modifies this, semaphoreArray, asl, asl.table, M.k.pcbs`next, M.k.pcbs`prev, M.k.pcbs`semAdd, M.k.pcbs`time
      ensures Heap() && Stands() && i < |old(M.k.dev)| && M == Nucleus.DeviceInterrupt(old(M), i, t1, t2)
    {
      hide Heap, Stands, Nucleus.GetNewJob, Nucleus.ReturnFromInterrupt, Charge, Wake, AddDev;
      DeviceInterruptIs(M, i, t1, t2);
      hide Nucleus.DeviceInterrupt;
      EnterInterrupt(t1);
      var value := AddToSemaphore(i, 1);
      if value <= 0 {
        Signal(i);
      }
      ReturnFromInterrupt(t2);
    }

    method Signal(i: nat)
      requires Heap() && Stands() && M.k.base == base && asl.blocked <= M.k.pcbs && Elements(ready) <= M.k.pcbs
      modifies this, asl, asl.table, M.k.pcbs`next, M.k.pcbs`prev, M.k.pcbs`semAdd
      ensures Heap() && Stands() && M == old(M).(k := SignalDevice(old(M.k), i))
      ensures Elements(ready) <= old(M.k.pcbs)
    {
      hide Records, Devices, Asl.List.Valid, PcbPool.Pool.Valid, Separate, IsQueue, Heap, NoDup, Registers, Wake;
      ghost var k := M.k;
      var process := WakeOne(base + WORDLEN * i);
      if process != null {
        Safety.WakeFields(k, DevAddr(k, i));
        AddToSoftBlock(-1);
      }
    }

    // ------------------------------------------------------------------ killing

    method EvictReady(p: Pcb)
      requires Heap() && Stands()
      modifies `readyQueue, `ready, `M, ready`next, ready`prev
      ensures Heap() && Stands() && M == old(M).(k := old(M.k).(ready := Without(old(M.k.ready), {p})))
      ensures p !in ready && Elements(ready) <= Elements(old(ready))
    {
      hide Records, Devices, Asl.List.Valid, PcbPool.Pool.Valid, Separate, IsQueue, NoDup, Heap, Without;
      DropReady(p);
      M := M.(k := M.k.(ready := ready));
    }

    /** Takes a blocked process off its queue and gives its semaphore back. */
    method EvictBlocked(p: Pcb)
      requires Heap() && Stands() && p in M.k.semAdd
      modifies `softBlockCount, `words, `M
      modifies asl`free, asl`spare, asl`listed, asl`queues, asl`blocked, asl.table
      modifies asl.blocked`next, asl.blocked`prev
      ensures Heap() && Stands() && M == old(M).(k := Unblocked(old(M.k), p))
      ensures asl.blocked == old(asl.blocked) - {p}
    {
      hide Stands, Heap, Unhooked;
      var a := p.semAdd;
      TagIs(p);
      UnhookedSame(M.k, p);
      Unqueue(p);
      Repay(a);
    }

    /** Gives back what a process killed while it waited on `a` had taken. */
    method Repay(a: nat)
      requires Stands()
      modifies `softBlockCount, `words, `M
      ensures Stands() && M == old(M).(k :=
        if IsDev(old(M.k), a) then old(M.k).(softBlock := old(M.k).softBlock - 1) else AddWord(old(M.k), a, 1))
    {
      hide Stands;
      Based();
      if base <= a && a <= base + WORDLEN * CLCKTIMER {
        AddToSoftBlock(-1);
      } else {
        var value := AddToWord(a, 1);
      }
    }

    lemma Based()
      requires Stands()
      ensures M.k.base == base
    {
    }

    lemma TagIs(p: Pcb)
      requires Stands() && p in M.k.semAdd
      ensures p.semAdd == M.k.semAdd[p] && M.k.base == base
    {
    }

    method Unqueue(p: Pcb)
      requires Heap() && Stands() && p in M.k.semAdd
      modifies `M, asl`free, asl`spare, asl`listed, asl`queues, asl`blocked, asl.table
      modifies asl.blocked`next, asl.blocked`prev
      ensures Heap() && Stands() && M == old(M).(k := Unhooked(old(M.k), p))
      ensures asl.blocked == old(asl.blocked) - {p}
    {
      hide Devices, Asl.List.Valid, PcbPool.Pool.Valid, Separate, IsQueue, NoDup, Heap, Records, Asl.Requeue, Without;
      assert p.semAdd == M.k.semAdd[p] by { TagIs(p); }
      Unhook(p);
      NoteUnhooked(p);
    }

    ghost method NoteUnhooked(p: Pcb)
      requires Registers() && M.k.free == pool.free && M.k.ready == ready && asl.capacity == |M.k.pcbs|
      requires Devices(semaphoreArray, M.k.dev) && Records(M.k.semAdd, M.time, M.vec) &&
        asl.queues == Unhooked(M.k, p).asl
      modifies `M
      ensures Stands() && M == old(M).(k := Unhooked(old(M.k), p))
    {
      hide Devices, Records, Asl.Requeue, Without;
      M := M.(k := Unhooked(M.k, p));
    }

    method Reclaim(p: Pcb)
      requires Heap() && Stands() && Nowhere(p) && p in M.k.semAdd && p in M.time && p in M.vec
      modifies pool, p, pool.free`next, pool.free`prev, `processCount, `M
      ensures Heap() && Stands() && M == Wiped(old(M), [p]).(k := Reclaimed(old(M.k), p))
    {
      hide Devices, Asl.List.Valid, PcbPool.Pool.Valid, Separate, IsQueue, NoDup, Heap, Records, Wiped;
      ReclaimFields(p);
      NoteReclaimed(p);
    }

    method NoteReclaimed(p: Pcb)
      requires Registers() && M.k.ready == ready && M.k.asl == asl.queues && asl.capacity == |M.k.pcbs|
      requires Devices(semaphoreArray, M.k.dev) && pool.free == M.k.free + [p]
      requires Records(M.k.semAdd[p := if wash then NULL else Tag(M.k, p)], Wiped(M, [p]).time, Wiped(M, [p]).vec)
      modifies `processCount, `M
      ensures Stands() && M == Wiped(old(M), [p]).(k := Reclaimed(old(M.k), p))
    {
      hide Devices, Records, Wiped;
      WipedOnly(M, [p]);
      processCount := processCount - 1;
      M := Wiped(M, [p]).(k := Reclaimed(M.k, p));
    }

    method ReclaimFields(p: Pcb)
      requires Heap() && Nowhere(p) && Records(M.k.semAdd, M.time, M.vec)
      requires p in M.k.semAdd && p in M.time && p in M.vec && M.k.wash == wash
      modifies pool, p, pool.free`next, pool.free`prev
      ensures Heap() && pool.free == old(pool.free) + [p]
      ensures Records(M.k.semAdd[p := if wash then NULL else Tag(M.k, p)], Wiped(M, [p]).time, Wiped(M, [p]).vec)
    {
      hide Asl.List.Valid, PcbPool.Pool.Valid, Separate, IsQueue, NoDup, Heap;
      Free(p);
    }

    /** Where a live process can be found, and what the queues hold. */
    lemma WhereIs(p: Pcb)
      requires asl.Valid() && Stands() && Places(M.k) && Live(M.k, p)
      ensures asl.blocked <= M.k.pcbs && Elements(ready) <= M.k.pcbs && Elements(pool.free) <= M.k.pcbs
      ensures p !in pool.free && p in M.k.semAdd && p.semAdd == Tag(M.k, p)
      ensures p in asl.blocked ==> p.semAdd != NULL
      ensures p in ready ==> p.semAdd == NULL
    {
      asl.SameSize();
      hide Asl.List.Valid, NoDup, Records, Devices;
      assert p in M.k.semAdd && p.semAdd == Tag(M.k, p) by { TagIs(p); }
      forall x {:trigger x in asl.blocked} | x in asl.blocked
        ensures x in M.k.pcbs && x.semAdd != NULL
      {
        assert x in Queue(M.k, x.semAdd);
      }
    }

    /** Takes a process that is not running off the queue it is on. */
    method Evict(p: Pcb)
      requires Heap() && Stands() && Places(M.k) && Live(M.k, p) && p != currentProcess
      modifies `readyQueue, `ready, `softBlockCount, `words, `M
      modifies asl`free, asl`spare, asl`listed, asl`queues, asl`blocked, asl.table
      modifies M.k.pcbs`next, M.k.pcbs`prev
      ensures Heap() && Stands() && M == old(M).(k := Evicted(old(M.k), p)) && Nowhere(p)
    {
      hide Records, Devices, Asl.List.Valid, PcbPool.Pool.Valid, Separate, IsQueue, NoDup, Unblocked, Without, Places;
      assert asl.Valid() by { hide Stands; }
      WhereIs(p);
      hide Heap;
      if p.semAdd == NULL {
        EvictReady(p);
      } else {
        EvictBlocked(p);
      }
    }

    /** The blocks below `parent` are linked as the forest `kids` says. */
    ghost predicate Rooted(parent: Pcb, kids: Forest)
      reads parent`child, Everyone(kids)`child, Everyone(kids)`prnt, Everyone(kids)`nextSib, Everyone(kids)`prevSib
    {
      Proper(kids) && parent !in Post(kids) && IsFamily(parent, Names(kids)) && Wired(kids)
    }

    /** Kills everything below `parent`, the newest child first. */
    method NukeProgeny(parent: Pcb, ghost kids: Forest)
      requires Heap() && Stands() && Rooted(parent, kids) && Condemned(M, Post(kids))
      modifies this, pool, asl, asl.table, M.k.pcbs`next, M.k.pcbs`prev, Everyone(kids), parent`child
      ensures Heap() && Stands() && parent.child == null
      ensures M == Killed(old(M), Post(kids)) && currentProcess == M.k.cur
      decreases |Post(kids)|, 1
    {
      hide Asl.List.Valid, IsQueue, NoDup, Heap, Stands, Killed, Condemned, Rooted, Names, Wired;
      ghost var s, rest, done := M, kids, [];
      KilledNobody(s);
      while parent.child != null
        invariant Heap() && Stands()
        invariant Rooted(parent, rest) && Condemned(M, Post(rest))
        invariant Post(kids) == done + Post(rest) && Everyone(rest) <= Everyone(kids)
        invariant M == Killed(s, done) && M.k.pcbs == s.k.pcbs
        decreases |Post(rest)|
      {
        NukeNewest(parent, rest);
        KilledTwice(s, done, Post(rest.kids) + [rest.p]);
        done := done + (Post(rest.kids) + [rest.p]);
        rest := rest.older;
      }
      assert rest == Nil by { RootedLeaf(parent, rest); }
      assert Post(rest) == [] && done == Post(kids);
      assert currentProcess == M.k.cur by { Current(); }
    }

    lemma Current()
      requires Stands()
      ensures currentProcess == M.k.cur
    {
    }

    lemma RootedLeaf(parent: Pcb, kids: Forest)
      requires Rooted(parent, kids) && parent.child == null
      ensures kids == Nil
    {
    }

    /** Kills the newest child of `parent` and everything below it. */
    method NukeNewest(parent: Pcb, ghost kids: Forest)
      requires Heap() && Stands() && Rooted(parent, kids) && Condemned(M, Post(kids)) && parent.child != null
      modifies this, pool, asl, asl.table, M.k.pcbs`next, M.k.pcbs`prev, Everyone(kids), parent`child
      ensures Heap() && Stands() && kids.Node?
      ensures Rooted(parent, kids.older) && Condemned(M, Post(kids.older)) && M.k.pcbs == old(M.k.pcbs)
      ensures M == Killed(old(M), Post(kids.kids) + [kids.p])
      decreases |Post(kids)|, 0
    {
      hide Asl.List.Valid, IsQueue, NoDup, Heap, Stands, Killed, Condemned, Wired, IsFamily;
      var child := PopChild(parent, kids);
      NewestApart(kids);
      Exists(kids.older);
      hide Rooted;
      NewestDoomed(kids);
      NukeItTilItPukes(child, kids.kids, []);
    }

    lemma NewestDoomed(f: Forest)
      requires Condemned(M, Post(f)) && f.Node?
      ensures Condemned(M, Post(f.kids)) && Live(M.k, f.p) && f.p != M.k.cur
      ensures var r := Killed(M, Post(f.kids) + [f.p]); Condemned(r, Post(f.older)) && r.k.pcbs == M.k.pcbs
    {
      var fam, older := Post(f.kids) + [f.p], Post(f.older);
      assert Post(f) == fam + older;
      CondemnedRest(M, fam, older);
      CondemnedPart(M, fam, older);
      CondemnedPart(M, Post(f.kids), [f.p]);
      assert f.p in fam;
      hide Places, Invariant.Semaphores, NoDup;
    }

    method PopChild(parent: Pcb, ghost kids: Forest) returns (child: Pcb)
      requires Rooted(parent, kids) && parent.child != null
      modifies Elements(Names(kids))`prnt, Elements(Names(kids))`nextSib, Elements(Names(kids))`prevSib, parent`child
      ensures kids.Node? && child == kids.p
      ensures Rooted(child, kids.kids) && Rooted(parent, kids.older)
    {
      assert kids.Node?;
      NewestApart(kids);
      assert parent !in Post(kids) && parent !in Post(kids.kids) && parent !in Post(kids.older) &&
        parent !in Names(kids.kids);
      assert Proper(kids.kids) && Proper(kids.older) && Wired(kids.kids) && Wired(kids.older);
      assert IsFamily(kids.p, Names(kids.kids)) && kids.p !in Post(kids.kids);
      hide Wired, IsFamily, NoDup, Proper, Post;
      child := PopNewest(parent, kids);
    }

    method PopNewest(parent: Pcb, ghost kids: Forest) returns (child: Pcb)
      requires kids.Node? && IsFamily(parent, Names(kids)) && parent.child != null && parent !in Post(kids)
      requires Wired(kids.kids) && Wired(kids.older) && IsFamily(kids.p, Names(kids.kids))
      requires forall x ::
        x in Inner(kids.older) || x in Inner(kids.kids) || x in Names(kids.kids) ==> x !in Names(kids)
      requires parent !in Post(kids.kids) && parent !in Post(kids.older) && parent != kids.p
      modifies Elements(Names(kids))`prnt, Elements(Names(kids))`nextSib, Elements(Names(kids))`prevSib, parent`child
      ensures child == kids.p && IsFamily(parent, Names(kids.older)) && IsFamily(child, Names(kids.kids))
      ensures Wired(kids.kids) && Wired(kids.older)
    {
      assert Names(kids) == [kids.p] + Names(kids.older);
      hide Wired, IsFamily, NoDup;
      Exists(kids.kids);
      Exists(kids.older);
      child := RemoveChild(parent, Names(kids));
      assert Names(kids)[1..] == Names(kids.older);
      assert Wired(kids.kids);
      assert Wired(kids.older);
      assert old(IsFamily(kids.p, Names(kids.kids))) && unchanged(kids.p`child);
      assert forall i ::
        0 <= i < |Names(kids.kids)| ==> Names(kids.kids)[i] in Names(kids.kids) && unchanged(Names(kids.kids)[i]);
    }

    /** Kills `parent` and everything below it. `sibs` are the children of its own
        parent, when it is running; the others have just been taken off theirs. */
    method NukeItTilItPukes(parent: Pcb, ghost kids: Forest, ghost sibs: seq<Pcb>)
      requires Heap() && Stands() && Rooted(parent, kids) && Condemned(M, Post(kids)) && Live(M.k, parent)
      requires Lineage(parent, parent == M.k.cur, kids, sibs)
      modifies this, pool, asl, asl.table, M.k.pcbs`next, M.k.pcbs`prev, Everyone(kids), parent
      modifies Above(parent, sibs)`child, Elements(sibs)`prnt, Elements(sibs)`nextSib, Elements(sibs)`prevSib
      ensures Heap() && Stands()
      ensures M == Killed(old(M), Post(kids) + [parent])
      ensures sibs != [] ==> old(parent.prnt) != null && IsFamily(old(parent.prnt), Without(sibs, {parent}))
      decreases |Post(kids)|, 2
    {
      hide Asl.List.Valid, IsQueue, NoDup, Heap, Stands, Killed, Condemned, IsFamily;
      ghost var s := M;
      assert Post(kids) + [] == Post(kids);
      CondemnedRest(s, Post(kids), []);
      assert parent !in Post(kids);
      hide Rooted;
      NukeProgeny(parent, kids);
      KilledTwice(s, Post(kids), [parent]);
      if currentProcess == parent {
        NukeRunning(parent, sibs);
      } else {
        NukeOther(parent);
      }
    }

    method NukeRunning(p: Pcb, ghost sibs: seq<Pcb>)
      requires Heap() && Stands() && Condemned(M, []) && Live(M.k, p) && p == M.k.cur && Lineage(p, true, Nil, sibs)
      modifies pool, `processCount, `M, p, M.k.pcbs`next, M.k.pcbs`prev
      modifies Above(p, sibs)`child, Elements(sibs)`prnt, Elements(sibs)`nextSib, Elements(sibs)`prevSib
      ensures Heap() && Stands() && M == Killed(old(M), [p])
      ensures sibs != [] ==> old(p.prnt) != null && IsFamily(old(p.prnt), Without(sibs, {p}))
    {
      hide Asl.List.Valid, IsQueue, NoDup, Heap, Stands, Killed, KillOne, Reclaimed, Without, Condemned, Wiped;
      KilledOne(M, p);
      RunningNowhere(p);
      ghost var above := p.prnt;
      var out := OutChild(p, sibs);
      hide IsFamily, Lineage;
      ReclaimFrom(p, if sibs == [] then null else above, Without(sibs, {p}));
    }

    /** Reclaims `p`, no longer one of the children of `above`. */
    method ReclaimFrom(p: Pcb, ghost above: Pcb?, ghost rest: seq<Pcb>)
      requires Heap() && Stands() && Nowhere(p) && p in M.k.semAdd && p in M.time && p in M.vec
      requires above != null ==> above != p && p !in rest && IsFamily(above, rest)
      modifies pool, p, pool.free`next, pool.free`prev, `processCount, `M
      ensures Heap() && Stands() && M == Wiped(old(M), [p]).(k := Reclaimed(old(M.k), p))
      ensures above != null ==> IsFamily(above, rest)
    {
      hide Heap, Stands, Nowhere, Wiped, Reclaimed, IsFamily;
      Reclaim(p);
    }

    lemma RunningNowhere(p: Pcb)
      requires Heap() && Stands() && Condemned(M, []) && Live(M.k, p) && p == M.k.cur
      ensures Nowhere(p) && p in M.k.semAdd && p in M.time && p in M.vec && Elements(pool.free) <= M.k.pcbs
    {
      WhereIs(p);
      hide Asl.List.Valid, IsQueue, NoDup, Invariant.Semaphores, AslOk, FreeOk, Devices, Records;
    }

    method NukeOther(p: Pcb)
      requires Heap() && Stands() && Condemned(M, []) && Live(M.k, p) && p != M.k.cur
      modifies this, pool, p, asl`free, asl`spare, asl`listed, asl`queues, asl`blocked, asl.table
      modifies M.k.pcbs`next, M.k.pcbs`prev
      ensures Heap() && Stands() && M == Killed(old(M), [p])
    {
      hide Asl.List.Valid, IsQueue, NoDup, Heap, Stands, Killed, KillOne, Reclaimed, Evicted, Condemned;
      KilledOne(M, p);
      Condemnable(p);
      Evict(p);
      Reclaim(p);
    }

    lemma Condemnable(p: Pcb)
      requires Heap() && Stands() && Condemned(M, []) && Live(M.k, p) && p != M.k.cur
      ensures Places(M.k) && p != currentProcess && p in M.time && p in M.vec
      ensures var r := Evicted(M.k, p);
        r.semAdd == M.k.semAdd && r.pcbs == M.k.pcbs && r.free == M.k.free && p in M.k.semAdd
      ensures Elements(pool.free) <= M.k.pcbs
    {
      WhereIs(p);
      EvictedFields(M.k, p);
      hide Asl.List.Valid, IsQueue, NoDup, Invariant.Semaphores, Places, Devices, Records, Evicted;
    }

    // ------------------------------------------------- the process tree at rest

    /** Everything the death of the running process relies on. */
    lemma ReadyToDie()
      requires Valid() && currentProcess != null && Planted(M.k.tree)
      ensures var kids := KidsOf(M.k.tree, currentProcess);
        && Rooted(currentProcess, kids) && Condemned(M, Post(kids)) && Live(M.k, currentProcess)
        && Lineage(currentProcess, true, kids, Siblings(M.k.tree, currentProcess))
        && Proper(M.k.tree) && currentProcess in Post(M.k.tree) && M.k.tree.Node? && M.k.tree.older == Nil
        && M.k.cur == currentProcess
    {
      hide Asl.List.Valid, IsQueue, Heap, Places, Invariant.Semaphores, Wired, IsFamily;
      var tree, c: Pcb := M.k.tree, currentProcess;
      CurrentLives(M.k);
      FamilyLives(M.k);
      ProperIff(tree);
      hide NoDup;
      PruneMembers(tree, c);
      WiredAt(tree, c);
      WiredBelow(tree, c);
      ParentPointer(tree, c);
      if c.prnt != null {
        NotAboveItself(tree, c, c.prnt);
        ChildrenInside(tree, c.prnt);
        WiredAt(tree, c.prnt);
      }
    }

    /** Kills `p` and all below it; the families `others` stay as they are. */
    method NukeAmong(p: Pcb, ghost kids: Forest, ghost sibs: seq<Pcb>, ghost others: map<Pcb, seq<Pcb>>)
      requires Heap() && Stands() && Rooted(p, kids) && Condemned(M, Post(kids)) && Live(M.k, p)
      requires Lineage(p, p == M.k.cur, kids, sibs)
      requires forall x :: x in others ==> IsFamily(x, others[x]) && x != p && x !in Post(kids) && x !in Above(p, sibs)
      requires forall x, y :: x in others && y in others[x] ==> y != p && y !in Post(kids) && y !in sibs
      modifies this, pool, asl, asl.table, M.k.pcbs`next, M.k.pcbs`prev, Everyone(kids), p
      modifies Above(p, sibs)`child, Elements(sibs)`prnt, Elements(sibs)`nextSib, Elements(sibs)`prevSib
      ensures Heap() && Stands() && M == Killed(old(M), Post(kids) + [p])
      ensures sibs != [] ==> old(p.prnt) != null && IsFamily(old(p.prnt), Without(sibs, {p}))
      ensures forall x :: x in others ==> IsFamily(x, others[x])
    {
      hide Asl.List.Valid, IsQueue, NoDup, Heap, Stands, Killed, Condemned, Rooted, Lineage, IsFamily;
      NukeItTilItPukes(p, kids, sibs);
      forall x | x in others
        ensures IsFamily(x, others[x])
      {
        assert old(IsFamily(x, others[x])) && x.child == old(x.child);
        forall y | y in others[x]
          ensures y.prnt == old(y.prnt) && y.nextSib == old(y.nextSib) && y.prevSib == old(y.prevSib)
        {
          assert y != p && y !in Everyone(kids) && y !in Elements(sibs);
        }
      }
    }

    /** Kills the running process and all below it; `currentProcess` dangles. */
    method NukeCurrent()
      requires Valid() && currentProcess != null && Planted(M.k.tree)
      modifies this, pool, asl, asl.table, M.k.pcbs
      ensures Heap() && Stands() && Planted(M.k.tree)
      ensures M == Wiped(old(M), Nucleus.Family(old(M.k))).(k := Nuke(old(M.k)).(cur := old(M.k.cur)))
    {
      hide Inv, Asl.List.Valid, IsQueue, NoDup, Heap, Stands, Condemned, Rooted, Lineage, Planted, Killed;
      hide Proper, Post, KidsOf, Prune, Wiped;
      ReadyToDie();
      Kindred(currentProcess);
      ghost var tree := M.k.tree;
      NukeFrom(currentProcess, tree);
      NukeIs(old(M), old(M).k.cur, Nucleus.Family(old(M).k));
      Regrow(Prune(tree, old(M).k.cur));
    }

    method NukeFrom(c: Pcb, ghost tree: Forest)
      requires Heap() && Stands() && Planted(tree) && Proper(tree) && c in Post(tree) && tree.Node? && tree.older == Nil
      requires Rooted(c, KidsOf(tree, c)) && Condemned(M, Post(KidsOf(tree, c))) && Live(M.k, c) && M.k.cur == c
      requires Lineage(c, true, KidsOf(tree, c), Siblings(tree, c))
      requires Everyone(KidsOf(tree, c)) <= M.k.pcbs && Elements(Siblings(tree, c)) <= M.k.pcbs
      requires c.prnt == null <==> c == tree.p
      requires c.prnt != null ==> c.prnt in M.k.pcbs && c in Children(tree, c.prnt)
      requires tree.p !in Siblings(tree, c) && tree.p !in Post(KidsOf(tree, c))
      modifies this, pool, asl, asl.table, M.k.pcbs
      ensures Heap() && Stands() && Planted(Prune(tree, c))
      ensures M == Killed(old(M), Post(KidsOf(tree, c)) + [c])
    {
      hide Asl.List.Valid, IsQueue, NoDup, Heap, Stands, Killed, Condemned, Rooted, Lineage, IsFamily, Wired, Untouched;
      hide Proper, Post, KidsOf, Prune;
      ghost var above := c.prnt;
      UntouchedWired(tree, c);
      UntouchedApart(tree, c, if above == null then c else above);
      NukeAmong(c, KidsOf(tree, c), Siblings(tree, c), Untouched(tree, c));
      ReplantAfter(tree, c, above);
    }

    /** The relatives of `c` are in the process table, and the root is not one
        of those whose parent pointer changes. */
    lemma Kindred(c: Pcb)
      requires Inv(M) && Planted(M.k.tree) && Proper(M.k.tree) && c in Post(M.k.tree) && M.k.tree.older == Nil
      ensures var tree := M.k.tree;
        && (c.prnt == null <==> c == tree.p)
        && (c.prnt != null ==>
           c.prnt in M.k.pcbs && c in Children(tree, c.prnt) && Siblings(tree, c) == Children(tree, c.prnt))
        && (c.prnt == null ==> Siblings(tree, c) == [])
        && Everyone(KidsOf(tree, c)) <= M.k.pcbs && Elements(Siblings(tree, c)) <= M.k.pcbs && c in M.k.pcbs
        && tree.p.prnt == null && tree.p !in Siblings(tree, c) && tree.p !in Post(KidsOf(tree, c))
    {
      hide Places, Invariant.Semaphores, NoDup, Wired;
      var tree := M.k.tree;
      ParentPointer(tree, c);
      PruneMembers(tree, c);
      BelowTop(tree, c);
      if c.prnt != null {
        ChildrenInside(tree, c.prnt);
      }
    }

    ghost method Regrow(tree: Forest)
      requires Stands()
      modifies `M
      ensures Stands() && M == old(M).(k := old(M.k).(tree := tree))
    {
      hide Records, Devices;
      M := M.(k := M.k.(tree := tree));
    }

    /** SYS2. */
    method Terminate(t: int)
      requires Valid() && mode == Running && Planted(M.k.tree)
      modifies this, pool, asl, asl.table, M.k.pcbs
      ensures Heap() && Stands() && Planted(M.k.tree) && M == Die(old(M), t)
    {
      hide Inv, Asl.List.Valid, IsQueue, NoDup, Heap, Stands, Planted, Wiped, Nuke, Nucleus.GetNewJob, Nucleus.Family;
      WhoDies();
      NukeCurrent();
      Exists(M.k.tree);
      Depart();
      Survivors(old(M));
      ReadySurvivors();
      GetNewJobUnder(t, M.k.tree);
    }

    /** The same, for a trap that is not passed up: here `currentProcess` is not
        cleared before the scheduler is called. */
    method KillCurrent(t: int)
      requires Valid() && mode == Running && Planted(M.k.tree)
      modifies this, pool, asl, asl.table, M.k.pcbs
      ensures Heap() && Stands() && Planted(M.k.tree) && M == Die(old(M), t)
    {
      hide Inv, Asl.List.Valid, IsQueue, NoDup, Heap, Stands, Planted, Wiped, Nuke, Nucleus.GetNewJob, Nucleus.Family;
      WhoDies();
      NukeCurrent();
      Survivors(old(M));
      ReadySurvivors();
      DispatchForgets(M, t);
      GetNewJobUnder(t, M.k.tree);
    }

    lemma WhoDies()
      requires Valid() && mode == Running
      ensures currentProcess != null && M.k.cur == currentProcess
    {
      hide Core, Asl.List.Valid, IsQueue, Heap;
    }

    lemma ReadySurvivors()
      requires Stands()
      ensures ready == M.k.ready
    {
    }

    method Depart()
      requires Stands()
      modifies `currentProcess, `M
      ensures Stands() && M == old(M).(k := old(M.k).(cur := null))
    {
      hide Records, Devices;
      currentProcess := null;
      M := M.(k := M.k.(cur := null));
    }

    method GetNewJobUnder(t: int, ghost tree: Forest)
      requires Heap() && Stands() && Planted(tree) && M.k.tree == tree
      modifies `readyQueue, `ready, ready`next, ready`prev
      modifies `currentProcess, `startTOD, `timeLeft, `timer, `intTimerFlag, `mode, `M
      ensures Heap() && Stands() && M == Nucleus.GetNewJob(old(M), t) && Planted(tree) && M.k.tree == tree
    {
      hide Heap, Stands, Planted, Nucleus.GetNewJob;
      Exists(tree);
      DispatchTree(M, t);
      GetNewJob(t);
    }

    // -------------------------------------------------------- traps and SYS5

    lemma VectorsHeld(p: Pcb)
      requires Stands() && p in M.vec
      ensures M.vec[p] == VectorsOf(p)
    {
    }

    lemma Runner()
      requires Valid() && mode == Running
      ensures currentProcess != null && currentProcess in M.k.pcbs && currentProcess in M.vec
      ensures M.k.cur == currentProcess && M.vec[currentProcess] == VectorsOf(currentProcess)
    {
      hide Asl.List.Valid, IsQueue, Heap, NoDup;
      AtRest();
      hide Inv, Valid;
      VectorsHeld(currentProcess);
    }

    /** A trap is passed up when its old area has been set, and fatal otherwise. */
    method PassUpOrDie(trap: Trap, t: int)
      requires Valid() && mode == Running && Planted(M.k.tree)
      modifies this, pool, asl, asl.table, M.k.pcbs
      ensures Heap() && Stands() && Planted(M.k.tree) && M == Nucleus.PassUpOrDie(old(M), trap, t)
    {
      hide Inv, Asl.List.Valid, IsQueue, NoDup, Heap, Stands, Planted, Die;
      Runner();
      match trap {
        case ProgTrap =>
          if currentProcess.oldPrgm != NULL {
            return;
          }
        case TlbTrap =>
          if currentProcess.oldTlb != NULL {
            return;
          }
        case SysTrap =>
          if currentProcess.oldSys != NULL {
            return;
          }
      }
      KillCurrent(t);
    }

    /** The cases of the switch fall through. */
    method SysFiveHandle(first: int, o: nat, n: nat, t: int)
      requires Valid() && mode == Running && Planted(M.k.tree)
      modifies this, pool, asl, asl.table, M.k.pcbs
      ensures Heap() && Stands() && Planted(M.k.tree) && M == Sesv(old(M), first, o, n, t)
    {
      hide Inv, Asl.List.Valid, IsQueue, NoDup, Heap, Stands, Planted, Die;
      Runner();
      Exists(M.k.tree);
      if first == 0 && currentProcess.oldTlb == NULL {
        SetArea(TlbTrap, o, n);
        return;
      }
      if 0 <= first <= 1 && currentProcess.oldPrgm == NULL {
        SetArea(ProgTrap, o, n);
        return;
      }
      if 0 <= first <= 2 && currentProcess.oldSys == NULL {
        SetArea(SysTrap, o, n);
        return;
      }
      KillCurrent(t);
    }

    method SetArea(trap: Trap, o: nat, n: nat)
      requires Heap() && Stands() && currentProcess != null && currentProcess in M.vec
      modifies `M, currentProcess`oldTlb, currentProcess`newTlb, currentProcess`oldPrgm, currentProcess`newPrgm
      modifies currentProcess`oldSys, currentProcess`newSys
      ensures Heap() && Stands() && currentProcess in old(M.vec)
      ensures M == old(M).(vec := old(M.vec)[currentProcess := WithArea(old(M.vec)[currentProcess], trap, o, n)])
    {
      hide Asl.List.Valid, IsQueue, NoDup, Heap, Devices, Records, WithArea;
      StoreArea(currentProcess, trap, o, n);
      M := M.(vec := M.vec[currentProcess := WithArea(M.vec[currentProcess], trap, o, n)]);
    }

    method StoreArea(p: Pcb, trap: Trap, o: nat, n: nat)
      requires Records(M.k.semAdd, M.time, M.vec) && p in M.vec
      modifies p`oldTlb, p`newTlb, p`oldPrgm, p`newPrgm, p`oldSys, p`newSys
      ensures p in M.vec && Records(M.k.semAdd, M.time, M.vec[p := WithArea(M.vec[p], trap, o, n)])
    {
      hide Stamped, Dated;
      match trap {
        case TlbTrap =>
          p.oldTlb, p.newTlb := o, n;
        case ProgTrap =>
          p.oldPrgm, p.newPrgm := o, n;
        case SysTrap =>
          p.oldSys, p.newSys := o, n;
      }
    }

    // --------------------------------------------------------------------- SYS1

    /** `InsertChild`, leaving the families `others` as they are. */
    method InsertChildAmong(parent: Pcb, p: Pcb, ghost kids: seq<Pcb>, ghost others: map<Pcb, seq<Pcb>>)
      requires IsFamily(parent, kids) && p !in kids && p != parent && p.child == null
      requires forall x :: x in others ==> IsFamily(x, others[x]) && x != parent && x != p
      requires forall x, y :: x in others && y in others[x] ==> y !in kids && y != p
      modifies parent`child, Elements(kids)`nextSib, p`prnt, p`nextSib, p`prevSib
      ensures IsFamily(parent, [p] + kids) && IsFamily(p, [])
      ensures forall x :: x in others ==> IsFamily(x, others[x])
    {
      hide IsFamily;
      InsertChild(parent, p, kids);
      NoKids(p);
    }

    lemma NoKids(p: Pcb)
      requires p.child == null
      ensures IsFamily(p, [])
    {
    }

    method Beget(c: Pcb, p: Pcb, ghost tree: Forest)
      requires Planted(tree) && Proper(tree) && c in Post(tree) && tree.Node? && tree.older == Nil
      requires p !in Post(tree) && p.child == null
      modifies c`child, Everyone(tree)`nextSib, p`prnt, p`nextSib, p`prevSib
      ensures Planted(Adopt(tree, c, p))
    {
      hide IsFamily, Wired, Proper, Post, KidsOf, Adopt, Others;
      OthersApart(tree, c);
      TopName(tree);
      InsertChildAmong(c, p, Children(tree, c), Others(tree, c));
      Graft(tree, c, p);
    }

    lemma TopName(tree: Forest)
      requires tree.Node?
      ensures tree.p in Names(tree) && tree.p in Post(tree)
    {
    }

    /** SYS1; tells whether a block could be had. */
    method CreateProcess() returns (done: bool)
      requires Valid() && mode == Running && Planted(M.k.tree)
      modifies this, pool, M.k.pcbs
      ensures Heap() && Stands() && Planted(M.k.tree) && M == Nucleus.CreateProcess(old(M))
      ensures done <==> old(M.k.free) != []
    {
      hide Inv, IsQueue, NoDup, Heap, Stands, Planted, Post, Proper;
      Runner();
      Newborn();
      Exists(M.k.tree);
      hide Valid;
      done := Bear(currentProcess, M.k.tree);
    }

    /** Makes a child of `c`, if a block can be had. */
    method Bear(c: Pcb, ghost tree: Forest) returns (done: bool)
      requires Heap() && Stands() && Planted(tree) && Proper(tree) && tree.Node? && tree.older == Nil && c in Post(tree)
      requires M.k.tree == tree && M.k.cur == c && pool.free == M.k.free && Everyone(tree) <= M.k.pcbs
      requires Elements(pool.free) <= M.k.pcbs && Elements(ready) <= M.k.pcbs && c in M.k.pcbs
      requires M.k.semAdd.Keys == M.time.Keys == M.vec.Keys == M.k.pcbs
      requires M.k.free != [] ==> M.k.free[0] !in Post(tree) && M.k.free[0] != c
      modifies this, pool, M.k.pcbs
      ensures Heap() && Stands() && Planted(M.k.tree) && M == Nucleus.CreateProcess(old(M))
      ensures done <==> old(M.k.free) != []
    {
      hide IsQueue, NoDup, Heap, Stands, Planted, Proper, Wiped, Adopt, Nowhere, Post;
      Exists(tree);
      var newPcb := Obtain();
      done := newPcb != null;
      if newPcb != null {
        Rear(c, newPcb, tree);
      }
    }

    /** The new block becomes a child of `c` and ready. */
    method Rear(c: Pcb, p: Pcb, ghost tree: Forest)
      requires Heap() && Stands() && Nowhere(p) && p in M.k.pcbs && Elements(ready) <= M.k.pcbs
      requires Planted(tree) && Proper(tree) && tree.Node? && tree.older == Nil && c in Post(tree)
      requires Everyone(tree) <= M.k.pcbs && p !in Post(tree) && p.child == null
      modifies this, M.k.pcbs
      ensures Heap() && Stands() && Planted(M.k.tree)
      ensures M == old(M).(k := old(M.k).(
        procCount := old(M.k).procCount + 1, tree := Adopt(tree, c, p), ready := old(M.k).ready + [p]))
    {
      hide IsQueue, NoDup, Heap, Stands, Planted, Proper, Adopt, Nowhere;
      ghost var grown := Adopt(tree, c, p);
      Beget(c, p, tree);
      Exists(grown);
      Enlist(p, grown);
    }

    /** What the block at the head of the free list is to the others. */
    lemma Newborn()
      requires Valid() && mode == Running
      ensures Elements(pool.free) <= M.k.pcbs && Elements(ready) <= M.k.pcbs && pool.free == M.k.free &&
        asl.blocked <= M.k.pcbs
      ensures var tree := M.k.tree;
        Proper(tree) && tree.Node? && tree.older == Nil && M.k.cur != null && M.k.cur in Post(tree)
      ensures Everyone(M.k.tree) <= M.k.pcbs && M.k.semAdd.Keys == M.time.Keys == M.vec.Keys == M.k.pcbs
      ensures M.k.free != [] ==> M.k.free[0] !in Post(M.k.tree) && M.k.free[0] != M.k.cur
    {
      AtRest();
      hide Asl.List.Valid, IsQueue, Heap, AslOk, Placed, Invariant.Semaphores;
      CurrentLives(M.k);
      ProperIff(M.k.tree);
      hide NoDup;
      assert M.k.free != [] ==> M.k.free[0] in M.k.free;
    }

    /** Takes a block off the free list, blank but for its semaphore address. */
    method Obtain() returns (p: Pcb?)
      requires Heap() && Stands() && Elements(pool.free) <= M.k.pcbs && pool.free == M.k.free
      requires M.k.semAdd.Keys == M.time.Keys == M.vec.Keys == M.k.pcbs
      modifies pool, `M, pool.free`next, pool.free`prev, (if pool.free == [] then {} else {pool.free[0]})
      ensures Heap() && Stands()
      ensures p == null <==> old(M.k.free) == []
      ensures p == null ==> M == old(M)
      ensures p != null ==> p == old(M.k.free)[0] && Nowhere(p) && p.child == null && p.prnt == null
      ensures p != null ==> M == Wiped(old(M), [p]).(k := old(M.k).(free := old(M.k.free)[1..]))
    {
      hide Asl.List.Valid, PcbPool.Pool.Valid, Separate, IsQueue, NoDup, Heap, Devices, Records, Nowhere, Wiped;
      p := ObtainFields();
      if p != null {
        NoteObtained(p);
      }
    }

    ghost method NoteObtained(p: Pcb)
      requires Registers() && Devices(semaphoreArray, M.k.dev) && M.k.asl == asl.queues && asl.capacity == |M.k.pcbs|
      requires M.k.free != [] && M.k.free[0] == p && pool.free == M.k.free[1..] && ready == M.k.ready
      requires Records(M.k.semAdd, Wiped(M, [p]).time, Wiped(M, [p]).vec)
      modifies `M
      ensures Stands() && M == Obtained(old(M))
    {
      hide Devices, Records, Wiped;
      WipedOnly(M, [p]);
      M := Obtained(M);
    }

    method ObtainFields() returns (p: Pcb?)
      requires Heap() && Records(M.k.semAdd, M.time, M.vec)
      modifies pool, pool.free`next, pool.free`prev, (if pool.free == [] then {} else {pool.free[0]})
      ensures Heap()
      ensures p == null <==> old(pool.free) == []
      ensures p == null ==> pool.free == [] && Records(M.k.semAdd, M.time, M.vec)
      ensures p != null ==>
        p == old(pool.free)[0] && pool.free == old(pool.free)[1..] && Nowhere(p) && p.child == null && p.prnt == null
      ensures p != null ==> Records(M.k.semAdd, Wiped(M, [p]).time, Wiped(M, [p]).vec)
    {
      hide Asl.List.Valid, IsQueue, NoDup, Heap, PcbPool.Pool.Valid, Separate, Nowhere;
      p := Alloc();
    }

    /** Counts the new process in and puts it on the ready queue. */
    method Enlist(p: Pcb, ghost tree: Forest)
      requires Heap() && Stands() && Nowhere(p)
      modifies `processCount, `M, `readyQueue, `ready, p`next, p`prev, ready`next, ready`prev
      ensures Heap() && Stands()
      ensures M == old(M).(
        k := old(M.k).(procCount := old(M.k).procCount + 1, tree := tree, ready := old(M.k).ready + [p]))
    {
      hide Asl.List.Valid, IsQueue, NoDup, Heap, Stands, Nowhere;
      CountIn(tree);
      Admit(p);
    }

    method CountIn(ghost tree: Forest)
      requires Stands()
      modifies `processCount, `M
      ensures Stands() && M == old(M).(k := old(M.k).(procCount := old(M.k).procCount + 1, tree := tree))
    {
      hide Devices, Records;
      processCount := processCount + 1;
      M := M.(k := M.k.(procCount := M.k.procCount + 1, tree := tree));
    }

    method Admit(p: Pcb)
      requires Heap() && Stands() && Nowhere(p)
      modifies `M, `readyQueue, `ready, p`next, p`prev, ready`next, ready`prev
      ensures Heap() && Stands() && M == old(M).(k := old(M.k).(ready := old(M.k).ready + [p]))
    {
      hide Asl.List.Valid, IsQueue, NoDup, Heap, Devices, Records, Nowhere;
      PutReady(p);
      M := M.(k := M.k.(ready := M.k.ready + [p]));
    }

    // -------------------------------------------------------------- every event

    /** A program stores into a word of its own that serves as a semaphore. */
    method StoreWord(a: nat, v: int)
      requires Stands()
      modifies `words, `M
      ensures Stands() && M == old(M).(k := old(M.k).(words := old(M.k.words)[a := v]))
    {
      hide Records, Devices;
      words := words[a := v];
      M := M.(k := M.k.(words := M.k.words[a := v]));
    }

    /** The events that move processes between queues and touch no family. */
    method Shuffle(x: Input)
      requires Sound() && (mode == Running ==> OnDuty()) && |M.k.dev| == MAXSEMA && Enabled(M, x)
      requires currentProcess != null ==> currentProcess in M.time
      requires ProperQueues(M.k)
      requires x.e.V? && Word(M.k, x.e.a) < 0 ==> Queue(M.k, x.e.a) != []
      requires !ChangesFamilies(x.e)
      modifies this, semaphoreArray, asl, asl.table, M.k.pcbs`next, M.k.pcbs`prev, M.k.pcbs`semAdd, M.k.pcbs`time
      ensures Heap() && Stands() && M == Step(old(M), x)
    {
      hide Asl.List.Valid, IsQueue, Heap, Stands, ProperQueues, OnDuty, Sound;
      hide Nucleus.Verhogen, Nucleus.Passeren, Nucleus.GetCpuTime, Nucleus.WaitForClock, Nucleus.WaitDevice;
      hide Nucleus.TimerInterrupt, Nucleus.DeviceInterrupt;
      SoundParts();
      match x.e {
        case V(a) => Verhogen(a);
        case P(a) => Passeren(a, x.t1, x.t2);
        case CpuTime =>
          var time := GetCpuTime(x.t1, x.t2);
        case Clock => WaitForClock(x.t1, x.t2);
        case IO(line, device, read) => WaitForIO(line, device, read, x.t1, x.t2);
        case Timer => TimerInterrupt(x.t1, x.t2);
        case Device(i) => DeviceInterrupt(i, x.t1, x.t2);
        case Store(a, v) => StoreWord(a, v);
      }
    }

    lemma SoundParts()
      requires Sound()
      ensures Heap() && Stands() && semaphoreArray.Length == MAXSEMA && M.mode == mode
    {
    }

    method ShuffleUnder(x: Input, ghost tree: Forest)
      requires Valid() && |M.k.dev| == MAXSEMA && Enabled(M, x) && !ChangesFamilies(x.e)
      requires Planted(tree) && M.k.tree == tree && Everyone(tree) <= M.k.pcbs
      modifies this, semaphoreArray, asl, asl.table, M.k.pcbs`next, M.k.pcbs`prev, M.k.pcbs`semAdd, M.k.pcbs`time
      ensures Heap() && Stands() && M == Step(old(M), x) && Planted(tree) && M.k.tree == tree
    {
      hide Inv, Asl.List.Valid, IsQueue, NoDup, Heap, Stands, Planted, Step, Sound, OnDuty, ProperQueues;
      AtRest();
      Widest(x);
      Exists(tree);
      StepTree(M, x);
      Shuffle(x);
    }

    lemma Widest(x: Input)
      requires Valid() && Enabled(M, x)
      ensures currentProcess != null ==> currentProcess in M.time
      ensures ProperQueues(M.k)
      ensures x.e.V? && Word(M.k, x.e.a) < 0 ==> Queue(M.k, x.e.a) != []
    {
      assert currentProcess == M.k.cur && Inv(M) by { hide Heap, Inv; }
      hide Valid, Heap, Stands, Registers, NoDup;
      Widths();
      QueuesProper(M.k);
      assert Core(M.k);
      hide Inv, Core, ProperQueues;
      if x.e.V? {
        Safety.QueueLength(M.k, x.e.a);
      }
    }

    /** Every system call, trap and interrupt takes exactly the step of the state
        machine, and leaves every structure proper for the next one. */
    method Handle(x: Input)
      requires Valid() && Planted(M.k.tree) && Enabled(M, x) && Safety.CleanSpawn(M, x)
      modifies this, pool, asl, asl.table, semaphoreArray, M.k.pcbs
      ensures |old(M.k.dev)| == MAXSEMA && M == Step(old(M), x)
      ensures Valid() && Planted(M.k.tree)
    {
      hide Inv, Asl.List.Valid, IsQueue, NoDup, Heap, Stands, Planted;
      hide Die, Nucleus.CreateProcess, Sesv, Nucleus.PassUpOrDie;
      Settled();
      assert Inv(Step(M, x)) by { Safety.StepKeeps(M, x); }
      match x.e {
        case Create =>
          var done := CreateProcess();
        case Terminate => Terminate(x.t2);
        case SetTrap(first, o, n) => SysFiveHandle(first, o, n, x.t2);
        case Trapped(trap) => PassUpOrDie(trap, x.t2);
        case _ => ShuffleUnder(x, M.k.tree);
      }
    }

    lemma Settled()
      requires Valid()
      ensures |M.k.dev| == MAXSEMA && Everyone(M.k.tree) <= M.k.pcbs && M.mode == mode
    {
      hide Asl.List.Valid, IsQueue, Heap, NoDup, Places;
    }

    /** What the interrupt hardware presents is served as one event. */
    method InterruptHandler(pending: bv32, bitMaps: seq<bv32>, busy: bool, t1: int, t2: int)
      requires Valid() && Planted(M.k.tree) && (mode == Running || mode == Waiting) && M.clock <= t1 <= t2
      requires |bitMaps| == 5 && exists j :: Lines.LINETWO <= j <= TERMINT && Lines.On(pending, j)
      requires forall j :: DISKINT <= j <= TERMINT && Lines.On(pending, j) ==> Lines.SomeDevice(bitMaps[j - DISKINT])
      modifies this, pool, asl, asl.table, semaphoreArray, M.k.pcbs
      ensures Valid() && Planted(M.k.tree) && |old(M.k.dev)| == MAXSEMA
      ensures exists line, e :: Lines.Raised(pending, bitMaps, busy, line, e) && M == Step(old(M), Input(e, t1, t2))
    {
      hide Inv, Heap, Stands, Planted, Step, Lines.On, Lines.SomeDevice, Lines.Lowest;
      Settled();
      var e, line := Lines.WhichInterrupt(pending, bitMaps, busy);
      assert Lines.Raised(pending, bitMaps, busy, line, e);
      Lines.Served(pending, bitMaps, busy, line, e);
      Handle(Input(e, t1, t2));
    }

    // ------------------------------------------------------------------- boot

    method ClearSemaphores()
      requires semaphoreArray.Length == MAXSEMA
      modifies semaphoreArray
      ensures semaphoreArray[..] == seq(MAXSEMA, _ => 0)
    {
      var i := 0;
      while i < MAXSEMA
        invariant i <= MAXSEMA
        invariant forall j :: 0 <= j < i ==> semaphoreArray[j] == 0
      {
        semaphoreArray[i] := 0;
        i := i + 1;
      }
    }

    /** What the constructor leaves before it clears the semaphores. */
    ghost predicate Raw(memory: map<nat, int>)
      reads this, pool, asl, asl.table, asl.blocked, pool.free, table
    {
      && M == Blank(table, base, wash, memory) && words == memory && pool.free == table
      && pool.Valid() && asl.Valid() && asl.queues == map[] && asl.blocked == {} && asl.capacity == |table|
      && readyQueue == null && ready == [] && currentProcess == null && processCount == softBlockCount == startTOD == 0
      && timeLeft == INTERVALTIME && !intTimerFlag && timer == QUANTUM && mode == Running
      && (forall p :: p in table ==> PcbPool.Washed(p) && p.semAdd == NULL)
    }

    method StartUp(memory: map<nat, int>, t: int)
      requires Raw(memory) && table != [] && semaphoreArray.Length == MAXSEMA
      requires base > NULL && t >= 0 && forall a :: a in memory ==> memory[a] >= 0
      modifies this, pool, semaphoreArray, table
      ensures NoDup(table) && M == Booted(table, base, wash, memory, t) && Valid() && Planted(M.k.tree)
    {
      TableNoDup(memory);
      hide IsQueue, NoDup, Heap, Stands, Planted, Inv, Blank, Nucleus.GetNewJob;
      ClearSemaphores();
      BlankStands(memory);
      hide Raw;
      FirstProcess(memory);
      assert Elements(ready) <= Elements(table) by { ReadySurvivors(); }
      GetNewJobUnder(t, M.k.tree);
      Safety.BootedInv(table, base, wash, memory, t);
    }

    lemma TableNoDup(memory: map<nat, int>)
      requires Raw(memory)
      ensures NoDup(table)
    {
    }

    lemma BlankStands(memory: map<nat, int>)
      requires Raw(memory) && NoDup(table)
      requires semaphoreArray[..] == seq(MAXSEMA, _ => 0)
      ensures Heap() && Stands()
    {
      NoDupCardinality(table);
      EmptyNoDup<Pcb>();
      hide Asl.List.Valid, PcbPool.Pool.Valid, NoDup;
    }

    /** Allocates the starting process and puts it on the ready queue. */
    method FirstProcess(ghost memory: map<nat, int>)
      requires Heap() && Stands() && M == Blank(table, base, wash, memory) && table != [] && NoDup(table)
      modifies pool, table, `M, `processCount, `readyQueue, `ready
      ensures Heap() && Stands() && M == Initial(table, base, wash, memory) && Planted(M.k.tree)
    {
      hide Asl.List.Valid, IsQueue, NoDup, Heap, Devices, Records, Wired, Wiped;
      BlankParts(table, base, wash, memory);
      assert pool.free == table && ready == [] && M.k.cur == currentProcess;
      hide Stands;
      var start := Obtain();
      Enlist(start, Node(start, Nil, Nil));
      Sprout(start);
    }

    lemma Sprout(p: Pcb)
      requires p.child == null && p.prnt == null
      ensures Planted(Node(p, Nil, Nil))
    {
      NoKids(p);
      assert Names(Nil) == [] && Wired(Nil);
    }
  }
}
