/** What a process that faults, loads or dies has still to do, and that it ends: its own
    steps, whatever the others do between them, are just those, and then it is back. */
module PagerProgress {
  import opened Sequences
  import opened Pager
  import opened PagerLocks
  import opened PagerMemory
  import opened PagerTheorems
  import Effects

  // ---------------------------------------------------------- what is still to do

  /** The steps left of one disk operation. */
  ghost function DiskLeft(io: Io): seq<Step> {
    match io
    case Want => [AskDisk, SeekDisk, MoveBlock, LeaveDisk]
    case Await => [SeekDisk, MoveBlock, LeaveDisk]
    case Seek => [SeekDisk, MoveBlock, LeaveDisk]
    case Transfer => [MoveBlock, LeaveDisk]
    case Release => [LeaveDisk]
  }

  /** Writing out what is in frame `f`, if anything is, reading the page in, and
      mapping it. */
  ghost function FrameLeft(y: Memory, f: nat): seq<Step> {
    (if SlotAt(y, f).Occupied? then DiskLeft(Want) else []) + DiskLeft(Want) + [Map, LeaveSwap]
  }

  /** Reading `n` blocks off the tape, each of which goes to the disk. */
  ghost function Blocks(n: nat): seq<Step> {
    if n == 0 then [] else [ReadTape] + DiskLeft(Want) + Blocks(n - 1)
  }

  ghost function BlocksFrom(tape: seq<Page>, k: nat): seq<Step> {
    Blocks(if k <= |tape| then |tape| - k else 0) + [EndLoad]
  }

  /** What a process at `pc` has still to do until it is back at its program or dead. */
  ghost function ToDo(y: Memory, swapSize: nat, tape: seq<Page>, pc: Pc): seq<Step> {
    match pc
    case Boot => [StartLoad] + BlocksFrom(tape, 0)
    case AwaitTape => BlocksFrom(tape, 0)
    case Tape(k) => BlocksFrom(tape, k)
    case Load(k, io) => DiskLeft(io) + BlocksFrom(tape, k + 1)
    case Loaded => [EndLoad]
    case InSwap(Fault(_)) => [Choose, Clear] + (if swapSize == 0 then [] else FrameLeft(y, (y.next + 1) % swapSize))
    case Chosen(_, f) => [Clear] + FrameLeft(y, f)
    case Evict(_, _, io) => DiskLeft(io) + DiskLeft(Want) + [Map, LeaveSwap]
    case Fetch(_, _, io) => DiskLeft(io) + [Map, LeaveSwap]
    case Fetched(_, _) => [Map, LeaveSwap]
    case Mapped => [LeaveSwap]
    case InSwap(Death) => [Sweep, LeaveSwap]
    case Swept => [LeaveSwap]
    case _ => []
  }

  ghost function Remaining(m: Machine, a: nat): seq<Step>
    requires a in m.procs
  {
    ToDo(m.mem, m.swapSize, if a in m.tapes then m.tapes[a] else [], m.procs[a].pc)
  }

  /** In the middle of something that it has to bring to its end. */
  ghost predicate Busy(pc: Pc) { Loading(pc) || HoldsSwap(pc) }

  /** Holding the swap pool because of a fault on page `g`; once that is mapped, its
      entry is valid. */
  ghost predicate Serves(m: Machine, a: nat, g: nat) {
    a in m.procs &&
    match m.procs[a].pc
    case InSwap(Fault(h)) => h == g
    case Chosen(h, _) => h == g
    case Evict(h, _, _) => h == g
    case Fetch(h, _, _) => h == g
    case Fetched(h, _) => h == g
    case Mapped => PteAt(m.mem, a, g).Valid?
    case _ => false
  }

  /** Loading; and from the first block on it has its tape. */
  ghost predicate Loads(a: nat, p: Proc) {
    a >= 1 && Loading(p.pc) && (p.pc.Boot? || p.pc.AwaitTape? || p.device == Some(TapeOf(a)))
  }

  /** Each process loads from the tape of its own number: line 4, and a mutex of its own. */
  lemma TapesAreOwn(a: nat, b: nat)
    requires 1 <= a <= 8 && 1 <= b <= 8
    ensures Effects.PortOf(TapeOf(a)) == Effects.Port(4, a - 1, false)
    ensures TapeOf(a) == TapeOf(b) ==> a == b
  {
  }

  // ------------------------------------------------------------- the steps of others

  /** A step of another process changes nothing of one's own, but may hand over a lock. */
  lemma OtherProc(m: Machine, x: Act, a: nat)
    requires x.asid in m.procs && Can(m, x.asid, x.step) && a in m.procs && a != x.asid
    ensures var n := Next(m, x.asid, x.step);
      a in n.procs && (n.procs[a] == m.procs[a] || n.procs[a] == Granted(a, m.procs[a]))
  {
    if LockStep(x.step) {
      LockProc(m, x.asid, a);
      hide Acquire, Free, Granted, AfterDisk, WithIo, TapeOf, DiskStage;
    } else {
      hide Acquire, Free, Moved, Struck, Cylinder, AfterDisk, SlotAt, PteAt, FrameAt, FlatAt, WithIo, TapeOf, DiskStage;
    }
  }

  lemma LockProc(m: Machine, b: nat, a: nat)
    requires a in m.procs && b in m.procs && a != b
    ensures forall l: nat, p, q :: var n := Acquire(m, b, l, p, q); a in n.procs && n.procs[a] == m.procs[a]
    ensures forall l: nat, p :: var n := Free(m, b, l, p);
      a in n.procs && (n.procs[a] == m.procs[a] || n.procs[a] == Granted(a, m.procs[a]))
  {
    hide Granted;
  }

  /** Who does not hold the swap pool changes neither its slots nor the page tables. */
  lemma OtherMem(m: Machine, x: Act)
    requires x.asid in m.procs && Can(m, x.asid, x.step) && !HoldsSwap(m.procs[x.asid].pc)
    ensures Unturned(m.mem, Next(m, x.asid, x.step).mem)
  {
    if LockStep(x.step) {
      LocksLeaveMem(m, x.asid, x.step);
      hide Next, Can;
    } else {
      NotSwapping(m, x);
      MovedTables(m.mem, x.asid, m.procs[x.asid].pc);
      hide Can, HoldsSwap, Acquire, Free, Struck, Moved, Cylinder, AfterDisk, SlotAt, PteAt, FrameAt, FlatAt, WithIo;
      hide TapeOf, DiskStage;
    }
  }

  /** Slots, page tables and the next frame are the same. */
  ghost predicate Unturned(y: Memory, z: Memory) {
    z.slots == y.slots && z.next == y.next && z.ptes == y.ptes
  }

  lemma NotSwapping(m: Machine, x: Act)
    requires x.asid in m.procs && Can(m, x.asid, x.step) && !HoldsSwap(m.procs[x.asid].pc)
    ensures !x.step.Choose? && !x.step.Clear? && !x.step.Map? && !x.step.Sweep? && !x.step.LeaveSwap?
  {
    hide PteAt;
  }

  lemma MovedTables(y: Memory, a: nat, pc: Pc)
    ensures Unturned(y, Moved(y, a, pc))
  {
    hide SlotAt, FrameAt, DiskAt, BufferAt;
  }

  /** A lock handed over leaves the same to do. */
  lemma GrantedToDo(y: Memory, size: nat, tape: seq<Page>, a: nat, p: Proc)
    requires Busy(p.pc)
    ensures ToDo(y, size, tape, Granted(a, p).pc) == ToDo(y, size, tape, p.pc) && Busy(Granted(a, p).pc)
    ensures Loads(a, p) ==> Loads(a, Granted(a, p))
  {
    hide FrameLeft, BlocksFrom;
  }

  lemma GrantedServes(m: Machine, n: Machine, a: nat, g: nat)
    requires Serves(m, a, g) && a in n.procs && n.procs[a] == Granted(a, m.procs[a]) && n.mem.ptes == m.mem.ptes
    ensures Serves(n, a, g)
  {
  }

  /** What a process has to do depends, of all the memory, on the next frame and on what
      is in the frames. */
  lemma SameToDo(y: Memory, z: Memory, size: nat, tape: seq<Page>, pc: Pc)
    requires Busy(pc) && (HoldsSwap(pc) ==> z.slots == y.slots && z.next == y.next)
    ensures ToDo(z, size, tape, pc) == ToDo(y, size, tape, pc)
  {
    hide BlocksFrom, DiskLeft;
  }

  lemma OthersStep(m: Machine, x: Act, a: nat, g: nat)
    requires Locks(m) && x.asid in m.procs && Can(m, x.asid, x.step)
    requires a in m.procs && a != x.asid && Busy(m.procs[a].pc)
    ensures var n := Next(m, x.asid, x.step);
      && a in n.procs && Busy(n.procs[a].pc) && Remaining(n, a) == Remaining(m, a)
      && (Serves(m, a, g) ==> Serves(n, a, g)) && (Loads(a, m.procs[a]) ==> Loads(a, n.procs[a]))
  {
    var n := Next(m, x.asid, x.step);
    var tape := if a in m.tapes then m.tapes[a] else [];
    OtherProc(m, x, a);
    StepPeople(m, x);
    ChoiceStep(m, x);
    SwapperIs(m, a);
    if HoldsSwap(m.procs[a].pc) {
      OtherMem(m, x);
    } else {
      NotServing(m, a, g);
    }
    if n.procs[a] == Granted(a, m.procs[a]) && Serves(m, a, g) {
      GrantedServes(m, n, a, g);
    }
    hide Next, Can, Locks, Busy, Loads, ToDo, HoldsSwap, SwapPc, Granted;
    SameToDo(m.mem, n.mem, m.swapSize, tape, m.procs[a].pc);
    GrantedToDo(n.mem, m.swapSize, tape, a, m.procs[a]);
  }

  lemma NotServing(m: Machine, a: nat, g: nat)
    requires a in m.procs && !HoldsSwap(m.procs[a].pc)
    ensures !Serves(m, a, g)
  {
  }

  // -------------------------------------------------------------------- one's own steps

  /** What the step `s` leaves the process at. */
  ghost predicate Moves(m: Machine, a: nat, s: Step, p: Proc, q: Proc) {
    match s
    case StartLoad => a >= 1 && (q == Proc(Tape(0), Some(TapeOf(a))) || q == p.(pc := AwaitTape))
    case ReadTape => p.pc.Tape? && q == p.(pc := Load(p.pc.block, Want))
    case EndLoad => q == Proc(Program, None)
    case Choose =>
      p.pc.InSwap? && p.pc.job.Fault? && m.swapSize > 0 &&
      q == p.(pc := Chosen(p.pc.job.page, (m.mem.next + 1) % m.swapSize))
    case Clear =>
      p.pc.Chosen? &&
      q == p.(pc := if SlotAt(m.mem, p.pc.frame).Empty? then Fetch(p.pc.page, p.pc.frame, Want)
        else Evict(p.pc.page, p.pc.frame, Want))
    case AskDisk => q == p.(pc := WithIo(p.pc, Seek)) || q == p.(pc := WithIo(p.pc, Await))
    case SeekDisk => q == p.(pc := WithIo(p.pc, Transfer))
    case MoveBlock => q == p.(pc := WithIo(p.pc, Release))
    case LeaveDisk =>
      q.device == p.device &&
      (|| (p.pc.Load? && q.pc ==
             if a in m.tapes && p.pc.block + 1 < |m.tapes[a]| then Tape(p.pc.block + 1) else Loaded)
       || (p.pc.Evict? && q.pc == Fetch(p.pc.page, p.pc.frame, Want))
       || (p.pc.Fetch? && q.pc == Fetched(p.pc.page, p.pc.frame)))
    case Map => q == p.(pc := Mapped)
    case Sweep => q == p.(pc := Swept)
    case LeaveSwap => q == p.(pc := if p.pc.Mapped? then Program else Dead)
    case _ => true
  }

  lemma OwnMoves(m: Machine, a: nat, s: Step)
    requires Locks(m) && a in m.procs && Can(m, a, s)
    ensures a in Next(m, a, s).procs && Moves(m, a, s, m.procs[a], Next(m, a, s).procs[a])
  {
    if s.EndLoad? || s.LeaveDisk? || s.LeaveSwap? {
      LeavingMoves(m, a, s);
    } else if LockStep(s) {
      hide Free, Locks, TapeOf, SlotAt, PteAt, DiskStage, WithIo;
    } else {
      hide Acquire, Free, Moved, Struck, Cylinder, AfterDisk, PteAt, FrameAt, FlatAt, WithIo, TapeOf, DiskStage, Locks;
      hide SlotAt;
    }
  }

  lemma LeavingMoves(m: Machine, a: nat, s: Step)
    requires Locks(m) && a in m.procs && Can(m, a, s) && (s.EndLoad? || s.LeaveDisk? || s.LeaveSwap?)
    ensures a in Next(m, a, s).procs && Moves(m, a, s, m.procs[a], Next(m, a, s).procs[a])
    ensures s.LeaveSwap? ==> SemAt(Next(m, a, s), SWAPSEM).owner != Some(a)
  {
    var p := m.procs[a];
    Held(m, a, s) by { hide LockOk, Holds, WaitsFor; }
    hide Locks, LockOk, Holds, WaitsFor, Free, DiskStage;
    match s
    case EndLoad => FreeOwn(m, a, p.device.value, Proc(Program, None));
    case LeaveDisk =>
      FreeOwn(m, a, BACKINGSTORE, p.(pc := AfterDisk(m, a, p.pc)));
      DiskLeaves(m, a, p.pc);
    case LeaveSwap => FreeOwn(m, a, SWAPSEM, p.(pc := if p.pc.Mapped? then Program else Dead));
    case _ =>
  }

  lemma DiskLeaves(m: Machine, a: nat, pc: Pc)
    requires DiskStage(pc) == Some(Release)
    ensures var q := AfterDisk(m, a, pc);
      || (pc.Load? && q == if a in m.tapes && pc.block + 1 < |m.tapes[a]| then Tape(pc.block + 1) else Loaded)
      || (pc.Evict? && q == Fetch(pc.page, pc.frame, Want))
      || (pc.Fetch? && q == Fetched(pc.page, pc.frame))
  {
  }

  /** Who gives a lock up goes on as it means to, and has it no more. */
  lemma FreeOwn(m: Machine, a: nat, l: nat, after: Proc)
    requires Locks(m) && a in m.procs && Holds(m.procs[a], l) && !WaitsFor(a, m.procs[a], l)
    ensures var n := Free(m, a, l, after); a in n.procs && n.procs[a] == after && SemAt(n, l).owner != Some(a)
  {
    hide Holds, WaitsFor, Granted;
    assert LockOk(m, l);
    HeadWaits(m, a, l);
    hide Locks, LockOk;
  }

  /** An operation on the disk leaves slots, page tables and the next frame alone. */
  lemma DiskMem(m: Machine, a: nat, s: Step)
    requires a in m.procs && Can(m, a, s) && !s.Choose? && !s.Clear? && !s.Map? && !s.Sweep?
    ensures Unturned(m.mem, Next(m, a, s).mem)
  {
    if LockStep(s) {
      LocksLeaveMem(m, a, s);
      hide Next, Can;
    } else {
      MovedTables(m.mem, a, m.procs[a].pc);
      hide Can, HoldsSwap, Acquire, Free, Struck, Moved, Cylinder, AfterDisk, SlotAt, PteAt, FrameAt, FlatAt, WithIo;
      hide TapeOf, DiskStage;
    }
  }

  lemma Assoc<T>(a: seq<T>, b: seq<T>, c: seq<T>)
    ensures (a + b) + c == a + (b + c)
  {
  }

  /** The next step of a disk operation, and those after it. */
  lemma DiskSteps(io: Io, rest: seq<Step>)
    ensures DiskLeft(Want) + rest == [AskDisk] + (DiskLeft(Seek) + rest)
    ensures DiskLeft(Await) == DiskLeft(Seek)
    ensures DiskLeft(Seek) + rest == [SeekDisk] + (DiskLeft(Transfer) + rest)
    ensures DiskLeft(Transfer) + rest == [MoveBlock] + (DiskLeft(Release) + rest)
    ensures DiskLeft(Release) + rest == [LeaveDisk] + rest
  {
    Assoc([AskDisk], DiskLeft(Seek), rest);
    Assoc([SeekDisk], DiskLeft(Transfer), rest);
    Assoc([MoveBlock], DiskLeft(Release), rest);
  }

  /** What is to do after the disk operation at `pc`. */
  ghost function AfterIo(tape: seq<Page>, pc: Pc): seq<Step> {
    match pc
    case Load(k, _) => BlocksFrom(tape, k + 1)
    case Evict(_, _, _) => DiskLeft(Want) + [Map, LeaveSwap]
    case Fetch(_, _, _) => [Map, LeaveSwap]
    case _ => []
  }

  lemma ToDoAtDisk(y: Memory, size: nat, tape: seq<Page>, pc: Pc, io: Io)
    requires DiskStage(pc).Some?
    ensures ToDo(y, size, tape, WithIo(pc, io)) == DiskLeft(io) + AfterIo(tape, pc)
    ensures ToDo(y, size, tape, pc) == DiskLeft(DiskStage(pc).value) + AfterIo(tape, pc)
    ensures Busy(pc) && Busy(WithIo(pc, io))
  {
    Assoc(DiskLeft(io), DiskLeft(Want), [Map, LeaveSwap]);
    Assoc(DiskLeft(DiskStage(pc).value), DiskLeft(Want), [Map, LeaveSwap]);
    hide DiskLeft, BlocksFrom;
  }

  lemma ToDoAfterDisk(y: Memory, size: nat, tape: seq<Page>, p: Pc, q: Pc)
    requires p.Load? ==> p.block < |tape| && q == if p.block + 1 < |tape| then Tape(p.block + 1) else Loaded
    requires p.Evict? ==> q == Fetch(p.page, p.frame, Want)
    requires p.Fetch? ==> q == Fetched(p.page, p.frame)
    requires DiskStage(p).Some?
    ensures ToDo(y, size, tape, q) == AfterIo(tape, p) && Busy(q)
  {
    hide DiskLeft, FrameLeft;
  }

  ghost function DiskDue(io: Io): Step {
    match io
    case Want => AskDisk
    case Await => SeekDisk
    case Seek => SeekDisk
    case Transfer => MoveBlock
    case Release => LeaveDisk
  }

  lemma DiskOneStep(m: Machine, z: Memory, a: nat, s: Step, p: Proc, q: Proc, tape: seq<Page>)
    requires Moves(m, a, s, p, q) && DiskStage(p.pc).Some?
    requires s == DiskDue(DiskStage(p.pc).value)
    requires tape == (if a in m.tapes then m.tapes[a] else []) && (p.pc.Load? ==> p.pc.block < |tape|)
    ensures ToDo(m.mem, m.swapSize, tape, p.pc) == [s] + ToDo(z, m.swapSize, tape, q.pc) && Busy(q.pc)
  {
    var io := DiskStage(p.pc).value;
    DiskSteps(io, AfterIo(tape, p.pc));
    ToDoAtDisk(m.mem, m.swapSize, tape, p.pc, io);
    hide ToDo, DiskLeft, AfterIo, Busy;
    if s.LeaveDisk? {
      hide WithIo;
      ToDoAfterDisk(z, m.swapSize, tape, p.pc, q.pc);
    } else {
      hide DiskStage;
      ToDoAtDisk(z, m.swapSize, tape, p.pc, Seek);
      ToDoAtDisk(z, m.swapSize, tape, p.pc, Await);
      ToDoAtDisk(z, m.swapSize, tape, p.pc, Transfer);
      ToDoAtDisk(z, m.swapSize, tape, p.pc, Release);
      hide WithIo;
    }
  }

  /** Where the step `s` of a process at `p` can be taken. */
  ghost predicate Due(a: nat, s: Step, p: Proc) {
    match s
    case StartLoad => p.pc.Boot? && a >= 1
    case ReadTape => p.pc.Tape?
    case EndLoad => p.pc.Loaded?
    case Choose => p.pc.InSwap? && p.pc.job.Fault?
    case Clear => p.pc.Chosen?
    case Map => p.pc.Fetched?
    case Sweep => p.pc == InSwap(Death)
    case LeaveSwap => p.pc.Mapped? || p.pc.Swept?
    case _ => false
  }

  lemma PlainOneStep(m: Machine, z: Memory, a: nat, s: Step, p: Proc, q: Proc, tape: seq<Page>)
    requires Due(a, s, p) && Moves(m, a, s, p, q)
    requires tape == (if a in m.tapes then m.tapes[a] else []) && (p.pc.Tape? ==> p.pc.block < |tape|)
    requires s.Choose? ==> z.slots == m.mem.slots
    ensures ToDo(m.mem, m.swapSize, tape, p.pc) == [s] + ToDo(z, m.swapSize, tape, q.pc)
    ensures if s.EndLoad? || s.LeaveSwap? then ToDo(z, m.swapSize, tape, q.pc) == [] else Busy(q.pc)
  {
    if s.ReadTape? {
      NextBlock(tape, p.pc.block);
      hide BlocksFrom, Blocks;
    } else if s.Choose? {
      var f := (m.mem.next + 1) % m.swapSize;
      FrameSlots(m.mem, z, f);
      Assoc([Choose], [Clear], FrameLeft(z, f));
      hide FrameLeft, SlotAt;
    } else if s.Clear? {
      hide DiskLeft, SlotAt;
    } else {
      hide BlocksFrom, DiskLeft;
    }
  }

  lemma FrameSlots(y: Memory, z: Memory, f: nat)
    requires z.slots == y.slots
    ensures FrameLeft(z, f) == FrameLeft(y, f)
  {
  }

  lemma NextBlock(tape: seq<Page>, k: nat)
    requires k < |tape|
    ensures BlocksFrom(tape, k) == [ReadTape] + (DiskLeft(Want) + BlocksFrom(tape, k + 1))
  {
    var n: nat := |tape| - k;
    assert Blocks(n) == [ReadTape] + DiskLeft(Want) + Blocks(n - 1);
    hide Blocks, DiskLeft;
    Assoc([ReadTape] + DiskLeft(Want), Blocks(n - 1), [EndLoad]);
    Assoc([ReadTape], DiskLeft(Want), Blocks(n - 1) + [EndLoad]);
  }

  /** A step of a busy process is the first of what it has to do, and takes that off. */
  lemma OneStep(m: Machine, a: nat, s: Step)
    requires Inv(m) && a in m.procs && Can(m, a, s) && Busy(m.procs[a].pc)
    ensures var n := Next(m, a, s); a in n.procs && Remaining(m, a) == [s] + Remaining(n, a)
    ensures s.EndLoad? || s.LeaveSwap? || Busy(Next(m, a, s).procs[a].pc)
    ensures s.EndLoad? || s.LeaveSwap? ==> Remaining(Next(m, a, s), a) == []
  {
    hide *;
    LocksOf(m);
    OwnMoves(m, a, s);
    StepPeople(m, Act(a, s));
    ChoiceStep(m, Act(a, s));
    TapeHas(m, a);
    BusyDue(m, a, s);
    if s.Choose? {
      ChooseMem(m, a, s);
    }
    OneStepOf(m, a, s, Next(m, a, s));
  }

  lemma LocksOf(m: Machine)
    requires Inv(m)
    ensures Locks(m)
  {
    hide Locks, Tables, Truth, ProcsOk;
  }

  lemma TapeHas(m: Machine, a: nat)
    requires Inv(m) && a in m.procs
    ensures a in m.tapes
    ensures m.procs[a].pc.Tape? ==> m.procs[a].pc.block < |m.tapes[a]|
    ensures m.procs[a].pc.Load? ==> m.procs[a].pc.block < |m.tapes[a]|
  {
    hide Locks, Tables, Truth;
    assert TapeOk(m.mem, a, m.tapes[a], m.procs[a].pc);
  }

  lemma ChooseMem(m: Machine, a: nat, s: Step)
    requires a in m.procs && Can(m, a, s) && s.Choose?
    ensures Next(m, a, s).mem.slots == m.mem.slots
  {
  }

  /** Who is busy can only take a step that its place calls for. */
  lemma BusyDue(m: Machine, a: nat, s: Step)
    requires a in m.procs && Can(m, a, s) && Busy(m.procs[a].pc)
    ensures Due(a, s, m.procs[a]) ||
      (DiskStage(m.procs[a].pc).Some? && s == DiskDue(DiskStage(m.procs[a].pc).value))
    ensures DiskStage(m.procs[a].pc).Some? ==> !s.EndLoad? && !s.LeaveSwap? && !s.Choose?
  {
    hide PteAt;
  }

  lemma OneStepOf(m: Machine, a: nat, s: Step, n: Machine)
    requires a in m.procs && a in n.procs && a in m.tapes && n.tapes == m.tapes && n.swapSize == m.swapSize
    requires Moves(m, a, s, m.procs[a], n.procs[a]) && (s.Choose? ==> n.mem.slots == m.mem.slots)
    requires m.procs[a].pc.Tape? ==> m.procs[a].pc.block < |m.tapes[a]|
    requires m.procs[a].pc.Load? ==> m.procs[a].pc.block < |m.tapes[a]|
    requires Due(a, s, m.procs[a]) ||
      (DiskStage(m.procs[a].pc).Some? && s == DiskDue(DiskStage(m.procs[a].pc).value))
    ensures Remaining(m, a) == [s] + Remaining(n, a)
    ensures s.EndLoad? || s.LeaveSwap? || Busy(n.procs[a].pc)
    ensures s.EndLoad? || s.LeaveSwap? ==> Remaining(n, a) == []
  {
    hide ToDo, Busy, Moves, DiskStage;
    if Due(a, s, m.procs[a]) {
      PlainOneStep(m, n.mem, a, s, m.procs[a], n.procs[a], m.tapes[a]);
    } else {
      DiskOneStep(m, n.mem, a, s, m.procs[a], n.procs[a], m.tapes[a]);
    }
  }

  /** A fault stays a fault on the same page until it is mapped; with its last step the
      process is back at its program, the entry is valid and the swap pool given back. */
  lemma ServesOn(m: Machine, a: nat, s: Step, g: nat)
    requires Inv(m) && a in m.procs && Can(m, a, s) && Serves(m, a, g)
    ensures a in Next(m, a, s).procs
    ensures !s.LeaveSwap? ==> Serves(Next(m, a, s), a, g)
    ensures s.LeaveSwap? ==>
      var n := Next(m, a, s); n.procs[a].pc.Program? && PteAt(n.mem, a, g).Valid? && SemAt(n, SWAPSEM).owner != Some(a)
  {
    hide *;
    LocksOf(m);
    OwnMoves(m, a, s);
    ServesBusy(m, a, g);
    BusyDue(m, a, s);
    if s.LeaveSwap? {
      LeavingMoves(m, a, s);
      DiskMem(m, a, s);
    }
    if s.Map? {
      MapsPage(m, a);
    }
    ServesOf(m, a, s, g, Next(m, a, s));
  }

  lemma ServesBusy(m: Machine, a: nat, g: nat)
    requires Serves(m, a, g)
    ensures a in m.procs && Busy(m.procs[a].pc) && HoldsSwap(m.procs[a].pc)
  {
  }

  lemma MapsPage(m: Machine, a: nat)
    requires a in m.procs && Can(m, a, Map)
    ensures m.procs[a].pc.Fetched? && PteAt(Next(m, a, Map).mem, a, m.procs[a].pc.page) == Valid(m.procs[a].pc.frame)
  {
  }

  lemma ServesOf(m: Machine, a: nat, s: Step, g: nat, n: Machine)
    requires Serves(m, a, g) && a in n.procs && Moves(m, a, s, m.procs[a], n.procs[a])
    requires Due(a, s, m.procs[a]) || (DiskStage(m.procs[a].pc).Some? && s == DiskDue(DiskStage(m.procs[a].pc).value))
    requires s.LeaveSwap? ==> Unturned(m.mem, n.mem) && SemAt(n, SWAPSEM).owner != Some(a)
    requires s.Map? ==> m.procs[a].pc.Fetched? && PteAt(n.mem, a, m.procs[a].pc.page) == Valid(m.procs[a].pc.frame)
    ensures !s.LeaveSwap? ==> Serves(n, a, g)
    ensures s.LeaveSwap? ==> n.procs[a].pc.Program? && PteAt(n.mem, a, g).Valid? && SemAt(n, SWAPSEM).owner != Some(a)
  {
    hide SlotAt, SemAt;
  }

  /** Loading goes on until the tape is given back. */
  lemma LoadsOn(m: Machine, a: nat, s: Step)
    requires Inv(m) && a in m.procs && Can(m, a, s) && Loads(a, m.procs[a])
    ensures a in Next(m, a, s).procs
    ensures if s.EndLoad? then Next(m, a, s).procs[a] == Proc(Program, None) else Loads(a, Next(m, a, s).procs[a])
    ensures !s.LeaveSwap?
  {
    hide *;
    LocksOf(m);
    OwnMoves(m, a, s);
    LoadsBusy(a, m.procs[a]);
    BusyDue(m, a, s);
    LoadsOf(m, a, s, m.procs[a], Next(m, a, s).procs[a]);
  }

  lemma LoadsBusy(a: nat, p: Proc)
    requires Loads(a, p)
    ensures Busy(p.pc) && !HoldsSwap(p.pc)
  {
  }

  lemma LoadsOf(m: Machine, a: nat, s: Step, p: Proc, q: Proc)
    requires Loads(a, p) && Moves(m, a, s, p, q)
    requires Due(a, s, p) || (DiskStage(p.pc).Some? && s == DiskDue(DiskStage(p.pc).value))
    ensures if s.EndLoad? then q == Proc(Program, None) else Loads(a, q)
    ensures !s.LeaveSwap?
  {
  }

  // ------------------------------------------------------------------------- runs

  /** The steps of `a` itself. */
  ghost function Own(xs: seq<Act>, a: nat): seq<Step> {
    if xs == [] then [] else (if xs[0].asid == a then [xs[0].step] else []) + Own(xs[1..], a)
  }

  lemma RunHead(m: Machine, xs: seq<Act>, t: Machine)
    requires Inv(m) && Run(m, xs, t) && xs != []
    ensures xs[0].asid in m.procs && Can(m, xs[0].asid, xs[0].step)
    ensures Inv(Next(m, xs[0].asid, xs[0].step)) && Run(Next(m, xs[0].asid, xs[0].step), xs[1..], t)
  {
    hide Inv, Next, Can;
    StepKeeps(m, xs[0].asid, xs[0].step);
  }

  /** Over every run: as long as it has taken fewer steps than it had to, a busy process
      has taken exactly the first of them, and has the others still to do. */
  lemma {:induction false} OnItsWay(m: Machine, xs: seq<Act>, t: Machine, a: nat)
    requires Inv(m) && Run(m, xs, t) && a in m.procs && Busy(m.procs[a].pc) && |Own(xs, a)| < |Remaining(m, a)|
    ensures a in t.procs && Busy(t.procs[a].pc) && Own(xs, a) + Remaining(t, a) == Remaining(m, a)
    decreases |xs|
  {
    hide Inv, Next, Can, Busy, Remaining;
    if xs != [] {
      RunHead(m, xs, t);
      var n := Next(m, xs[0].asid, xs[0].step);
      if xs[0].asid == a {
        OneStep(m, a, xs[0].step);
        OnItsWay(n, xs[1..], t, a);
        Assoc([xs[0].step], Own(xs[1..], a), Remaining(t, a));
      } else {
        LocksOf(m);
        OthersStep(m, xs[0], a, 0);
        OnItsWay(n, xs[1..], t, a);
      }
    }
  }

  lemma PrefixRun(m: Machine, xs: seq<Act>, i: nat, u: Machine, a: nat)
    requires xs != [] && i < |xs| && xs[0].asid in m.procs && Can(m, xs[0].asid, xs[0].step)
    requires Run(Next(m, xs[0].asid, xs[0].step), xs[1..][..i], u)
    ensures Run(m, xs[..i + 1], u)
    ensures Own(xs[..i + 1], a) == (if xs[0].asid == a then [xs[0].step] else []) + Own(xs[1..][..i], a)
  {
    hide Next, Can;
    assert xs[..i + 1][0] == xs[0] && xs[..i + 1][1..] == xs[1..][..i];
  }

  /** Every page fault is served: over every run in which the process takes as many steps
      of its own, those are exactly what it had to do, and after the last of them it is
      back at its program, the entry of its page is valid and leads to the page's
      contents, and it has left the swap pool. */
  lemma {:induction false} FaultServed(m: Machine, xs: seq<Act>, t: Machine, a: nat, g: nat)
    returns (i: nat, u: Machine)
    requires Inv(m) && Run(m, xs, t) && Serves(m, a, g) && |Own(xs, a)| >= |Remaining(m, a)|
    ensures i <= |xs| && Run(m, xs[..i], u) && Own(xs[..i], a) == Remaining(m, a)
    ensures a in u.procs && u.procs[a].pc == Program && SemAt(u, SWAPSEM).owner != Some(a)
    ensures PteAt(u.mem, a, g).Valid? && FrameAt(u.mem, PteAt(u.mem, a, g).frame) == FlatAt(u.mem, a, g)
    decreases |xs|
  {
    hide Inv, Next, Can, Busy, Remaining, Serves, PteAt, SemAt, FrameAt, FlatAt;
    ServesBusy(m, a, g);
    BusyLeft(m, a);
    RunHead(m, xs, t);
    var n := Next(m, xs[0].asid, xs[0].step);
    if xs[0].asid == a {
      OneStep(m, a, xs[0].step);
      ServesOn(m, a, xs[0].step, g);
      if xs[0].step.LeaveSwap? {
        i, u := 1, n;
        assert xs[1..][..0] == [] && Run(n, [], n);
        PrefixRun(m, xs, 0, u, a);
        ValidIsTrue(u, a, g);
        return;
      }
      ServesNotLoads(m, a, xs[0].step, g);
    } else {
      LocksOf(m);
      OthersStep(m, xs[0], a, g);
    }
    var j;
    j, u := FaultServed(n, xs[1..], t, a, g);
    i := j + 1;
    PrefixRun(m, xs, j, u, a);
  }

  lemma BusyLeft(m: Machine, a: nat)
    requires a in m.procs && Busy(m.procs[a].pc)
    ensures Remaining(m, a) != []
  {
    hide FrameLeft, Blocks;
  }

  lemma ValidIsTrue(m: Machine, a: nat, g: nat)
    requires Inv(m) && a in m.procs && m.procs[a].pc.Program? && PteAt(m.mem, a, g).Valid?
    ensures FrameAt(m.mem, PteAt(m.mem, a, g).frame) == FlatAt(m.mem, a, g)
  {
    TruthAt(m, a, g);
    hide Inv;
  }

  lemma ServesNotLoads(m: Machine, a: nat, s: Step, g: nat)
    requires Serves(m, a, g) && Can(m, a, s)
    ensures !s.EndLoad?
  {
  }

  /** Every load ends: after its own steps for each block of the tape in turn, and the
      last one, the process is at its program, without its tape, whatever the others do
      in between. */
  lemma {:induction false} LoadEnds(m: Machine, xs: seq<Act>, t: Machine, a: nat) returns (i: nat, u: Machine)
    requires Inv(m) && Run(m, xs, t) && a in m.procs && Loads(a, m.procs[a]) && |Own(xs, a)| >= |Remaining(m, a)|
    ensures i <= |xs| && Run(m, xs[..i], u) && Own(xs[..i], a) == Remaining(m, a)
    ensures a in u.procs && u.procs[a] == Proc(Program, None)
    decreases |xs|
  {
    hide Inv, Next, Can, Busy, Remaining, Loads;
    LoadsBusy(a, m.procs[a]);
    BusyLeft(m, a);
    RunHead(m, xs, t);
    var n := Next(m, xs[0].asid, xs[0].step);
    if xs[0].asid == a {
      OneStep(m, a, xs[0].step);
      LoadsOn(m, a, xs[0].step);
      if xs[0].step.EndLoad? {
        i, u := 1, n;
        assert xs[1..][..0] == [] && Run(n, [], n);
        PrefixRun(m, xs, 0, u, a);
        return;
      }
    } else {
      LocksOf(m);
      OthersStep(m, xs[0], a, 0);
    }
    var j;
    j, u := LoadEnds(n, xs[1..], t, a);
    i := j + 1;
    PrefixRun(m, xs, j, u, a);
  }

  /** What is to do from the start, and from the moment a fault or a death has the swap
      pool: `5 n + 2` steps to load `n` blocks, 8 for a fault that takes an empty frame,
      12 for one that has to write a page out first, 2 to die. */
  lemma HowMuch(m: Machine, a: nat)
    requires a in m.procs
    ensures m.procs[a].pc == Boot && a in m.tapes ==>
      Remaining(m, a) == [StartLoad] + Blocks(|m.tapes[a]|) + [EndLoad] && |Remaining(m, a)| == 5 * |m.tapes[a]| + 2
    ensures m.procs[a].pc.InSwap? && m.procs[a].pc.job.Fault? && m.swapSize > 0 ==>
      |Remaining(m, a)| == if SlotAt(m.mem, (m.mem.next + 1) % m.swapSize).Occupied? then 12 else 8
    ensures m.procs[a].pc == InSwap(Death) ==> Remaining(m, a) == [Sweep, LeaveSwap]
  {
    if a in m.tapes {
      BlocksLength(|m.tapes[a]|);
    }
    hide Blocks;
  }

  lemma {:induction false} BlocksLength(n: nat)
    ensures |Blocks(n)| == 5 * n
  {
    if n > 0 {
      BlocksLength(n - 1);
    }
  }

  /** The process waits for the swap pool, or has it, because of a fault on page `g`. */
  ghost predicate Faulted(m: Machine, a: nat, g: nat) {
    Serves(m, a, g) || (a in m.procs && m.procs[a].pc == AwaitSwap(Fault(g)))
  }

  lemma FaultEnters(m: Machine, a: nat, g: nat)
    requires a in m.procs && Can(m, a, PageFault(g))
    ensures Faulted(Next(m, a, PageFault(g)), a, g)
  {
    hide PteAt, SemAt;
  }

  lemma AtMostTwelve(m: Machine, a: nat, g: nat)
    requires Serves(m, a, g)
    ensures |Remaining(m, a)| <= 12
  {
    hide SlotAt, Blocks, PteAt;
  }

  lemma StillFaulted(m: Machine, x: Act, a: nat, g: nat)
    requires a in m.procs && m.procs[a].pc == AwaitSwap(Fault(g)) && x.asid in m.procs && Can(m, x.asid, x.step)
    ensures x.asid != a && Faulted(Next(m, x.asid, x.step), a, g)
  {
    assert x.asid != a by { hide PteAt; }
    OtherProc(m, x, a);
    hide Next, Can;
  }

  /** Every page fault ends: in every run in which a process, once it has faulted on page
      `g`, takes twelve steps of its own, whoever else has the swap pool first and
      whatever the others do, it is at some moment back at its program, with the entry
      valid, the page's contents behind it, and the swap pool given back. */
  lemma {:induction false} FaultEnds(m: Machine, xs: seq<Act>, t: Machine, a: nat, g: nat) returns (i: nat, u: Machine)
    requires Inv(m) && Run(m, xs, t) && Faulted(m, a, g) && |Own(xs, a)| >= 12
    ensures i <= |xs| && Run(m, xs[..i], u) && |Own(xs[..i], a)| <= 12
    ensures a in u.procs && u.procs[a].pc == Program && SemAt(u, SWAPSEM).owner != Some(a)
    ensures PteAt(u.mem, a, g).Valid? && FrameAt(u.mem, PteAt(u.mem, a, g).frame) == FlatAt(u.mem, a, g)
    decreases |xs|
  {
    hide Inv, Next, Can, Remaining, Serves, PteAt, SemAt, FrameAt, FlatAt;
    if Serves(m, a, g) {
      AtMostTwelve(m, a, g);
      ServesBusy(m, a, g);
      i, u := FaultServed(m, xs, t, a, g);
      return;
    }
    RunHead(m, xs, t);
    StillFaulted(m, xs[0], a, g);
    hide Faulted;
    var j;
    j, u := FaultEnds(Next(m, xs[0].asid, xs[0].step), xs[1..], t, a, g);
    i := j + 1;
    PrefixRun(m, xs, j, u, a);
  }

  /** The process is on its way out, with this many steps of its own left. */
  ghost function Dying(pc: Pc): nat {
    match pc
    case AwaitSwap(Death) => 2
    case InSwap(Death) => 2
    case Swept => 1
    case _ => 0
  }

  lemma DeathEnters(m: Machine, a: nat)
    requires a in m.procs && Can(m, a, Die)
    ensures a in Next(m, a, Die).procs && Dying(Next(m, a, Die).procs[a].pc) == 2
  {
    hide SemAt;
  }

  lemma DyingStep(m: Machine, x: Act, a: nat)
    requires Inv(m) && a in m.procs && Dying(m.procs[a].pc) > 0 && x.asid in m.procs && Can(m, x.asid, x.step)
    ensures a in Next(m, x.asid, x.step).procs
    ensures var n, p := Next(m, x.asid, x.step), m.procs[a].pc; var q := n.procs[a].pc;
      && (x.asid != a ==> Dying(q) == Dying(p))
      && (x.asid == a ==> Dying(q) == Dying(p) - 1 && (q.Swept? || (q.Dead? && SemAt(n, SWAPSEM).owner != Some(a))))
  {
    hide *;
    LocksOf(m);
    if x.asid == a {
      OwnMoves(m, a, x.step);
      DyingDue(m, a, x.step);
      if x.step.LeaveSwap? {
        LeavingMoves(m, a, x.step);
      }
      DyingMoves(m, a, x.step, m.procs[a], Next(m, a, x.step).procs[a]);
    } else {
      OtherProc(m, x, a);
      GrantedDies(a, m.procs[a]);
    }
  }

  lemma DyingDue(m: Machine, a: nat, s: Step)
    requires a in m.procs && Can(m, a, s) && Dying(m.procs[a].pc) > 0
    ensures (s.Sweep? && m.procs[a].pc == InSwap(Death)) || (s.LeaveSwap? && m.procs[a].pc.Swept?)
  {
    hide PteAt;
  }

  lemma DyingMoves(m: Machine, a: nat, s: Step, p: Proc, q: Proc)
    requires Moves(m, a, s, p, q) && ((s.Sweep? && p.pc == InSwap(Death)) || (s.LeaveSwap? && p.pc.Swept?))
    ensures Dying(q.pc) == Dying(p.pc) - 1 && (q.pc.Swept? || (q.pc.Dead? && s.LeaveSwap?))
  {
  }

  lemma GrantedDies(a: nat, p: Proc)
    ensures Dying(p.pc) > 0 ==> Dying(Granted(a, p).pc) == Dying(p.pc)
  {
  }

  /** Every death ends: in every run in which a process, once it has begun to die, takes
      two steps of its own, it is at some moment dead, has left the swap pool and has no
      frame. */
  lemma {:induction false} DeathEnds(m: Machine, xs: seq<Act>, t: Machine, a: nat) returns (i: nat, u: Machine)
    requires Inv(m) && Run(m, xs, t) && a in m.procs && 0 < Dying(m.procs[a].pc) <= |Own(xs, a)|
    ensures i <= |xs| && Run(m, xs[..i], u)
    ensures a in u.procs && u.procs[a].pc == Dead && SemAt(u, SWAPSEM).owner != Some(a)
    ensures forall f: nat :: SlotAt(u.mem, f).Occupied? ==> SlotAt(u.mem, f).asid != a
    decreases |xs|
  {
    hide Inv, Next, Can, SemAt, SlotAt;
    RunHead(m, xs, t);
    var n := Next(m, xs[0].asid, xs[0].step);
    DyingStep(m, xs[0], a);
    if n.procs[a].pc.Dead? {
      i, u := 1, n;
      assert xs[1..][..0] == [] && Run(n, [], n);
      PrefixRun(m, xs, 0, u, a);
      DeadHasNone(u, a);
      return;
    }
    var j;
    j, u := DeathEnds(n, xs[1..], t, a);
    i := j + 1;
    PrefixRun(m, xs, j, u, a);
  }

  lemma DeadHasNone(m: Machine, a: nat)
    requires Inv(m) && a in m.procs && m.procs[a].pc.Dead?
    ensures forall f: nat :: SlotAt(m.mem, f).Occupied? ==> SlotAt(m.mem, f).asid != a
  {
    hide Locks, Truth, ProcsOk, PtesOk, TlbOk, PteAt, SlotAt;
  }

  /** A busy process that waits for no lock can take the next of its steps, and no
      other. */
  lemma CanGoOn(m: Machine, a: nat)
    requires Inv(m) && m.swapSize > 0 && a in m.procs && !Waits(m.procs[a].pc)
    requires Loads(a, m.procs[a]) || HoldsSwap(m.procs[a].pc)
    ensures Remaining(m, a) != [] && Can(m, a, Remaining(m, a)[0])
    ensures forall s: Step :: Can(m, a, s) ==> s == Remaining(m, a)[0]
  {
    hide *;
    TapeHas(m, a);
    IsBusy(a, m.procs[a]);
    BusyLeft(m, a);
    FirstCan(m, a);
    forall s: Step | Can(m, a, s)
      ensures s == Remaining(m, a)[0]
    {
      OneStep(m, a, s);
    }
  }

  lemma IsBusy(a: nat, p: Proc)
    requires Loads(a, p) || HoldsSwap(p.pc)
    ensures Busy(p.pc)
  {
  }

  lemma FirstCan(m: Machine, a: nat)
    requires m.swapSize > 0 && a in m.procs && !Waits(m.procs[a].pc) && Remaining(m, a) != []
    requires Loads(a, m.procs[a]) || HoldsSwap(m.procs[a].pc)
    requires a in m.tapes && (m.procs[a].pc.Tape? ==> m.procs[a].pc.block < |m.tapes[a]|)
    ensures Can(m, a, Remaining(m, a)[0])
  {
    hide FrameLeft, Cylinder, SlotAt, PteAt;
  }
}
