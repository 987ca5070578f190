/** The demand pager as a protocol: every process runs on its own, and between
    any two of its steps the others may take theirs. Pages move between tape,
    disk and frames under `swapSem` and the mutex of the backing store, while
    their owners load and store. */
module Pager {
  import opened Sequences

  datatype Option<T> = None | Some(value: T)

  /** The contents of one page or disk sector: the words written so far. */
  type Page = map<nat, int>

  const BACKINGSTORE: nat := 0       // mutexSemArray[0]; 1 to 48 guard the other devices
  const SWAPSEM: nat := 49
  const DEVPERINT: nat := 8

  // ------------------------------------------------------------------ processes

  /** Why a process asks for the swap pool. */
  datatype Job = Fault(page: nat) | Death

  /** A disk operation: its mutex is asked for, waited for, held while the arm
      seeks and while the block is moved, and then given back. */
  datatype Io = Want | Await | Seek | Transfer | Release

  datatype Pc =
    | Boot                                        // about to ask for its tape
    | AwaitTape
    | Tape(block: nat)                            // about to read a block off the tape
    | Load(block: nat, io: Io)                    // the block, in its buffer, goes to the disk
    | Loaded
    | Program                                     // its own program, or a device routine
    | AwaitDevice(device: nat)
    | AwaitSwap(job: Job)
    | InSwap(job: Job)
    | Chosen(page: nat, frame: nat)
    | Evict(page: nat, frame: nat, io: Io)        // the frame's old page goes to the disk
    | Fetch(page: nat, frame: nat, io: Io)        // the missing page comes in
    | Fetched(page: nat, frame: nat)
    | Mapped
    | Swept                                       // its frames are empty, its tables wrecked
    | Dead

  /** `device` is the mutex of the device the process is using, if any. */
  datatype Proc = Proc(pc: Pc, device: Option<nat>)

  ghost predicate HoldsSwap(pc: Pc) {
    pc.InSwap? || pc.Chosen? || pc.Evict? || pc.Fetch? || pc.Fetched? || pc.Mapped? || pc.Swept?
  }

  ghost function DiskStage(pc: Pc): Option<Io> {
    match pc
    case Load(_, io) => Some(io)
    case Evict(_, _, io) => Some(io)
    case Fetch(_, _, io) => Some(io)
    case _ => None
  }

  ghost predicate HoldsDisk(pc: Pc) {
    var io := DiskStage(pc);
    io.Some? && (io.value.Seek? || io.value.Transfer? || io.value.Release?)
  }

  ghost predicate Holds(p: Proc, l: nat) {
    || (p.device == Some(l))
    || (l == SWAPSEM && HoldsSwap(p.pc))
    || (l == BACKINGSTORE && HoldsDisk(p.pc))
  }

  ghost function TapeOf(a: nat): nat
    requires a >= 1
  {
    DEVPERINT + (a - 1)
  }

  ghost predicate WaitsFor(a: nat, p: Proc, l: nat) {
    match p.pc
    case AwaitTape => a >= 1 && l == TapeOf(a)
    case AwaitDevice(d) => l == d
    case AwaitSwap(_) => l == SWAPSEM
    case _ => l == BACKINGSTORE && DiskStage(p.pc) == Some(Await)
  }

  ghost predicate Loading(pc: Pc) { pc.Boot? || pc.AwaitTape? || pc.Tape? || pc.Load? || pc.Loaded? }

  ghost predicate Alive(pc: Pc) { !pc.Swept? && !pc.Dead? }

  // ---------------------------------------------------------------------- state

  datatype Slot = Empty | Occupied(asid: nat, page: nat)

  datatype Pte = Invalid | Valid(frame: nat) | Wrecked

  datatype Sem = Sem(value: int, queue: seq<nat>, owner: Option<nat>)   // `owner` is history

  datatype Memory = Memory(
    frames: map<nat, Page>,
    slots: map<nat, Slot>,            // swapPool
    next: nat,                        // nextFrame
    ptes: map<(nat, nat), Pte>,       // by process and page
    tlb: map<(nat, nat), nat>,
    disk: map<(nat, nat), Page>,      // by cylinder and sector
    arm: nat,
    buffers: map<nat, Page>,
    flat: map<(nat, nat), Page>,      // history: each process's memory as its stores made it
    touched: set<(nat, nat)>)         // history: the pages stored into

  datatype Machine = Machine(
    swapSize: nat,
    tapes: map<nat, seq<Page>>,
    procs: map<nat, Proc>,
    sems: map<nat, Sem>,
    mem: Memory)

  ghost function SemAt(m: Machine, l: nat): Sem { if l in m.sems then m.sems[l] else Sem(1, [], None) }
  ghost function FrameAt(y: Memory, f: nat): Page { if f in y.frames then y.frames[f] else map[] }
  ghost function SlotAt(y: Memory, f: nat): Slot { if f in y.slots then y.slots[f] else Empty }
  ghost function PteAt(y: Memory, a: nat, g: nat): Pte { if (a, g) in y.ptes then y.ptes[(a, g)] else Invalid }
  ghost function DiskAt(y: Memory, c: nat, s: int): Page {
    if s >= 0 && (c, s) in y.disk then y.disk[(c, s)] else map[]
  }
  ghost function BufferAt(y: Memory, a: nat): Page { if a in y.buffers then y.buffers[a] else map[] }
  ghost function FlatAt(y: Memory, a: nat, g: nat): Page { if (a, g) in y.flat then y.flat[(a, g)] else map[] }

  // ---------------------------------------------------------------------- locks

  /** P: the process goes on as `got`, or waits as `waiting`. */
  ghost function Acquire(m: Machine, a: nat, l: nat, got: Proc, waiting: Proc): Machine {
    var s := SemAt(m, l);
    if s.value - 1 >= 0 then
      m.(procs := m.procs[a := got], sems := m.sems[l := Sem(s.value - 1, s.queue, Some(a))])
    else
      m.(procs := m.procs[a := waiting], sems := m.sems[l := Sem(s.value - 1, s.queue + [a], s.owner)])
  }

  /** What a process goes on as when the lock it waits for becomes its own. */
  ghost function Granted(a: nat, p: Proc): Proc {
    match p.pc
    case AwaitTape => if a >= 1 then Proc(Tape(0), Some(TapeOf(a))) else p
    case AwaitDevice(d) => Proc(Program, Some(d))
    case AwaitSwap(job) => p.(pc := InSwap(job))
    case Load(k, Await) => p.(pc := Load(k, Seek))
    case Evict(g, f, Await) => p.(pc := Evict(g, f, Seek))
    case Fetch(g, f, Await) => p.(pc := Fetch(g, f, Seek))
    case _ => p
  }

  /** V: the process goes on as `after`; the longest waiter, if any, is next. */
  ghost function Free(m: Machine, a: nat, l: nat, after: Proc): Machine {
    var s := SemAt(m, l);
    var procs := m.procs[a := after];
    if s.value + 1 <= 0 && s.queue != [] && s.queue[0] in procs then
      m.(procs := procs[s.queue[0] := Granted(s.queue[0], procs[s.queue[0]])],
         sems := m.sems[l := Sem(s.value + 1, s.queue[1..], Some(s.queue[0]))])
    else
      m.(procs := procs, sems := m.sems[l := Sem(s.value + 1, s.queue, None)])
  }

  // ---------------------------------------------------------------------- steps

  datatype Step =
    | StartLoad | ReadTape | EndLoad
    | Refill(page: nat)
    | Store(page: nat, offset: nat, word: int)
    | PageFault(page: nat)
    | Die
    | TakeDevice(device: nat)
    | LeaveDevice
    | Choose | Clear
    | AskDisk | SeekDisk | MoveBlock | LeaveDisk
    | Map | Sweep | LeaveSwap

  /** The cylinder a disk operation is about: pages and tape blocks alike are
      stored by their number. */
  ghost function Cylinder(y: Memory, pc: Pc): nat {
    match pc
    case Load(k, _) => k
    case Evict(_, f, _) => if SlotAt(y, f).Occupied? then SlotAt(y, f).page else 0
    case Fetch(g, _, _) => g
    case _ => 0
  }

  ghost function WithIo(pc: Pc, io: Io): Pc {
    match pc
    case Load(k, _) => Load(k, io)
    case Evict(g, f, _) => Evict(g, f, io)
    case Fetch(g, f, _) => Fetch(g, f, io)
    case _ => pc
  }

  /** The block moves where the arm stands, in the sector of its process. */
  ghost function Moved(y: Memory, a: nat, pc: Pc): Memory {
    match pc
    case Load(k, _) =>
      if a == 0 then y
      else y.(disk := y.disk[(y.arm, a - 1) := BufferAt(y, a)], flat := y.flat[(a, k) := BufferAt(y, a)])
    case Evict(_, f, _) =>
      var s := SlotAt(y, f);
      if s.Empty? || s.asid == 0 then y else y.(disk := y.disk[(y.arm, s.asid - 1) := FrameAt(y, f)])
    case Fetch(_, f, _) => y.(frames := y.frames[f := DiskAt(y, y.arm, a - 1)])
    case _ => y
  }

  ghost function AfterDisk(m: Machine, a: nat, pc: Pc): Pc {
    match pc
    case Load(k, _) => if a in m.tapes && k + 1 < |m.tapes[a]| then Tape(k + 1) else Loaded
    case Evict(g, f, _) => Fetch(g, f, Want)
    case Fetch(g, f, _) => Fetched(g, f)
    case _ => pc
  }

  /** The frames of `a` emptied and the entries of the pages in them struck out:
      those keep the valid bit they had, and lose their address. */
  ghost function Struck(y: Memory, a: nat): Memory {
    var mine := set f | f in y.slots && y.slots[f].Occupied? && y.slots[f].asid == a;
    var pages := set f | f in mine :: y.slots[f].page;
    if mine == {} then y else
    y.(slots := map f | f in y.slots :: if f in mine then Empty else y.slots[f],
       ptes := map k | k in y.ptes :: if k.0 == a && k.1 in pages && y.ptes[k].Valid? then Wrecked else y.ptes[k],
       tlb := map[])
  }

  ghost predicate Can(m: Machine, a: nat, s: Step)
    requires a in m.procs
  {
    var p := m.procs[a];
    match s
    case StartLoad => p.pc.Boot? && a >= 1
    case ReadTape => p.pc.Tape? && a in m.tapes && p.pc.block < |m.tapes[a]|
    case EndLoad => p.pc.Loaded? && p.device.Some?
    case Refill(g) => p.pc.Program? && PteAt(m.mem, a, g).Valid?
    case Store(g, _, _) => p.pc.Program? && (a, g) in m.mem.tlb
    case PageFault(g) => p.pc.Program? && (a, g) !in m.mem.tlb && !PteAt(m.mem, a, g).Valid?
    case Die => p.pc.Program?
    case TakeDevice(d) => p.pc.Program? && p.device.None? && BACKINGSTORE < d < SWAPSEM
    case LeaveDevice => p.pc.Program? && p.device.Some?
    case Choose => p.pc.InSwap? && p.pc.job.Fault? && m.swapSize > 0
    case Clear => p.pc.Chosen?
    case AskDisk => DiskStage(p.pc) == Some(Want)
    case SeekDisk => DiskStage(p.pc) == Some(Seek)
    case MoveBlock => DiskStage(p.pc) == Some(Transfer)
    case LeaveDisk => DiskStage(p.pc) == Some(Release)
    case Map => p.pc.Fetched?
    case Sweep => p.pc == InSwap(Death)
    case LeaveSwap => p.pc.Mapped? || p.pc.Swept?
  }

  ghost function Go(m: Machine, a: nat, pc: Pc): Machine
    requires a in m.procs
  {
    m.(procs := m.procs[a := m.procs[a].(pc := pc)])
  }

  ghost function Next(m: Machine, a: nat, s: Step): Machine
    requires a in m.procs && Can(m, a, s)
  {
    var p, y := m.procs[a], m.mem;
    match s
    case StartLoad => Acquire(m, a, TapeOf(a), Proc(Tape(0), Some(TapeOf(a))), p.(pc := AwaitTape))
    case ReadTape => Go(m, a, Load(p.pc.block, Want)).(mem := y.(buffers := y.buffers[a := m.tapes[a][p.pc.block]]))
    case EndLoad => Free(m, a, p.device.value, Proc(Program, None))
    case Refill(g) => m.(mem := y.(tlb := y.tlb[(a, g) := PteAt(y, a, g).frame]))
    case Store(g, i, v) =>
      var f := y.tlb[(a, g)];
      m.(mem := y.(frames := y.frames[f := FrameAt(y, f)[i := v]],
                   flat := y.flat[(a, g) := FlatAt(y, a, g)[i := v]], touched := y.touched + {(a, g)}))
    case PageFault(g) => Acquire(m, a, SWAPSEM, p.(pc := InSwap(Fault(g))), p.(pc := AwaitSwap(Fault(g))))
    case Die => Acquire(m, a, SWAPSEM, p.(pc := InSwap(Death)), p.(pc := AwaitSwap(Death)))
    case TakeDevice(d) => Acquire(m, a, d, Proc(Program, Some(d)), p.(pc := AwaitDevice(d)))
    case LeaveDevice => Free(m, a, p.device.value, Proc(Program, None))
    case Choose =>
      var f := (y.next + 1) % m.swapSize;
      Go(m, a, Chosen(p.pc.job.page, f)).(mem := y.(next := f))
    case Clear =>
      var f := p.pc.frame;
      if SlotAt(y, f).Empty? then Go(m, a, Fetch(p.pc.page, f, Want))
      else Go(m, a, Evict(p.pc.page, f, Want)).(mem :=
        y.(ptes := y.ptes[(SlotAt(y, f).asid, SlotAt(y, f).page) := Invalid], tlb := map[]))
    case AskDisk => Acquire(m, a, BACKINGSTORE, p.(pc := WithIo(p.pc, Seek)), p.(pc := WithIo(p.pc, Await)))
    case SeekDisk => Go(m, a, WithIo(p.pc, Transfer)).(mem := y.(arm := Cylinder(y, p.pc)))
    case MoveBlock => Go(m, a, WithIo(p.pc, Release)).(mem := Moved(y, a, p.pc))
    case LeaveDisk => Free(m, a, BACKINGSTORE, p.(pc := AfterDisk(m, a, p.pc)))
    case Map =>
      var f, g := p.pc.frame, p.pc.page;
      Go(m, a, Mapped).(mem :=
        y.(slots := y.slots[f := Occupied(a, g)], ptes := y.ptes[(a, g) := Valid(f)], tlb := map[]))
    case Sweep => Go(m, a, Swept).(mem := Struck(y, a))
    case LeaveSwap => Free(m, a, SWAPSEM, p.(pc := if p.pc.Mapped? then Program else Dead))
  }
}
