/** Paging is invisible: wherever the protocol has put a page, its owner finds
    in it what its own stores have made of it. */
module PagerMemory {
  import opened Sequences
  import opened Pager
  import opened PagerLocks

  // ------------------------------------------------------- where a page's truth is

  /** The frame that the process holding `swapSem` is turning over, if any. */
  ghost function BusyFrame(pc: Pc): Option<nat> {
    match pc
    case Evict(_, f, _) => Some(f)
    case Fetch(_, f, _) => Some(f)
    case Fetched(_, f) => Some(f)
    case _ => None
  }

  /** The frame whose page is on its way out and not yet on the disk. */
  ghost function LeavingFrame(pc: Pc): Option<nat> {
    match pc
    case Evict(_, f, io) => if io.Release? then None else Some(f)
    case _ => None
  }

  ghost function SwapPc(m: Machine): Pc {
    var s := SemAt(m, SWAPSEM);
    if s.owner.Some? && s.owner.value in m.procs then m.procs[s.owner.value].pc else Dead
  }

  /** The contents of page `g` of process `a`: its frame while its entry is valid
      or it is being written out, and its sector of the backing store otherwise. */
  ghost function Contents(y: Memory, leaving: Option<nat>, a: nat, g: nat): Page {
    if PteAt(y, a, g).Valid? then FrameAt(y, PteAt(y, a, g).frame)
    else if leaving.Some? && SlotAt(y, leaving.value) == Occupied(a, g) then FrameAt(y, leaving.value)
    else DiskAt(y, g, a - 1)
  }

  // ------------------------------------------------------------------- invariants

  /** An occupied frame belongs to a live process past loading, whose entry for
      the page names the frame unless the frame is being turned over. */
  ghost predicate SlotsOk(procs: map<nat, Proc>, y: Memory, busy: Option<nat>) {
    forall f: nat {:trigger SlotAt(y, f)} :: SlotAt(y, f).Occupied? ==>
      && SlotAt(y, f).asid in procs
      && Alive(procs[SlotAt(y, f).asid].pc) && !Loading(procs[SlotAt(y, f).asid].pc)
      && (busy != Some(f) ==> PteAt(y, SlotAt(y, f).asid, SlotAt(y, f).page) == Valid(f))
      && (busy == Some(f) ==> !PteAt(y, SlotAt(y, f).asid, SlotAt(y, f).page).Valid?)
  }

  ghost predicate PtesOk(procs: map<nat, Proc>, y: Memory) {
    forall a: nat, g: nat {:trigger PteAt(y, a, g)} :: a in procs && Alive(procs[a].pc) && PteAt(y, a, g).Valid? ==>
      SlotAt(y, PteAt(y, a, g).frame) == Occupied(a, g)
  }

  ghost predicate TlbOk(procs: map<nat, Proc>, y: Memory) {
    forall k :: k in y.tlb ==> k.0 in procs && Alive(procs[k.0].pc) && PteAt(y, k.0, k.1) == Valid(y.tlb[k])
  }

  ghost predicate Truth(procs: map<nat, Proc>, y: Memory, leaving: Option<nat>) {
    forall a: nat, g: nat {:trigger FlatAt(y, a, g)} :: a in procs && Alive(procs[a].pc) ==>
      Contents(y, leaving, a, g) == FlatAt(y, a, g)
  }

  /** The page a process is faulting on. */
  ghost function Missing(pc: Pc): Option<nat> {
    match pc
    case AwaitSwap(Fault(g)) => Some(g)
    case InSwap(Fault(g)) => Some(g)
    case Chosen(g, _) => Some(g)
    case Evict(g, _, _) => Some(g)
    case Fetch(g, _, _) => Some(g)
    case Fetched(g, _) => Some(g)
    case _ => None
  }

  /** How many blocks of its tape are on the disk for sure. */
  ghost function BlocksIn(tape: seq<Page>, pc: Pc): nat {
    match pc
    case Boot => 0
    case AwaitTape => 0
    case Tape(k) => k
    case Load(k, io) => if io.Release? then k + 1 else k
    case _ => |tape|
  }

  ghost predicate TapeOk(y: Memory, a: nat, tape: seq<Page>, pc: Pc) {
    && tape != []
    && (pc.Tape? ==> pc.block < |tape|)
    && (pc.Load? ==> pc.block < |tape| && BufferAt(y, a) == tape[pc.block])
    && (Loading(pc) ==> forall g: nat :: (a, g) !in y.touched)
    && (forall k: nat {:trigger FlatAt(y, a, k)} ::
          k < BlocksIn(tape, pc) && k < |tape| && (a, k) !in y.touched ==> FlatAt(y, a, k) == tape[k])
  }

  ghost predicate PagingOk(y: Memory, a: nat, pc: Pc) {
    && (Missing(pc).Some? ==> !PteAt(y, a, Missing(pc).value).Valid?)
    && (DiskStage(pc) == Some(Transfer) ==> y.arm == Cylinder(y, pc))
    && (pc.Evict? ==> SlotAt(y, pc.frame).Occupied?)
    && (pc.Evict? && pc.io.Release? ==>
          var s := SlotAt(y, pc.frame); FrameAt(y, pc.frame) == DiskAt(y, s.page, s.asid - 1))
    && (pc.Fetch? && pc.io.Release? ==> FrameAt(y, pc.frame) == DiskAt(y, pc.page, a - 1))
    && (pc.Fetched? ==> FrameAt(y, pc.frame) == DiskAt(y, pc.page, a - 1))
  }

  ghost predicate ProcsOk(m: Machine) {
    && (forall a :: a in m.procs ==> a in m.tapes && TapeOk(m.mem, a, m.tapes[a], m.procs[a].pc))
    && (forall a :: a in m.procs ==> PagingOk(m.mem, a, m.procs[a].pc))
  }

  ghost predicate Tables(m: Machine) {
    && SlotsOk(m.procs, m.mem, BusyFrame(SwapPc(m))) && PtesOk(m.procs, m.mem) && TlbOk(m.procs, m.mem)
  }

  ghost predicate Inv(m: Machine) {
    && Locks(m) && Tables(m) && Truth(m.procs, m.mem, LeavingFrame(SwapPc(m))) && ProcsOk(m)
  }

  // ------------------------------------------------------------ steps of control

  /** Who is turning a frame over holds `swapSem`. */
  lemma SwapperIs(m: Machine, a: nat)
    requires Locks(m) && a in m.procs
    ensures HoldsSwap(m.procs[a].pc) ==> SwapPc(m) == m.procs[a].pc
    ensures HoldsSwap(m.procs[a].pc) ==> forall b :: b in m.procs && b != a ==> !HoldsSwap(m.procs[b].pc)
    ensures HoldsDisk(m.procs[a].pc) ==> forall b :: b in m.procs && b != a ==> !HoldsDisk(m.procs[b].pc)
  {
    hide NoDup, WaitsFor;
    assert LockOk(m, SWAPSEM) && LockOk(m, BACKINGSTORE);
  }

  ghost predicate SamePeople(m: Machine, r: Machine) {
    && r.procs.Keys == m.procs.Keys && r.tapes == m.tapes
    && forall b :: b in m.procs ==>
      && (Alive(r.procs[b].pc) <==> Alive(m.procs[b].pc))
      && (Loading(r.procs[b].pc) ==> Loading(m.procs[b].pc))
  }

  /** A step that moves no data and turns no frame over. */
  lemma ControlKeeps(m: Machine, r: Machine)
    requires Inv(m) && Locks(r) && SamePeople(m, r) && r.mem == m.mem.(next := r.mem.next)
    requires BusyFrame(SwapPc(r)) == BusyFrame(SwapPc(m)) && LeavingFrame(SwapPc(r)) == LeavingFrame(SwapPc(m))
    requires ProcsOk(r)
    ensures Inv(r)
  {
    hide Locks, Alive, Loading, ProcsOk;
    Views(m.mem, r.mem);
    hide SlotAt, PteAt, FlatAt;
  }

  /** What is equal in two memories reads the same in both. */
  lemma Views(y: Memory, z: Memory)
    ensures z.slots == y.slots ==> forall f: nat {:trigger SlotAt(z, f)} :: SlotAt(z, f) == SlotAt(y, f)
    ensures z.frames == y.frames ==> forall f: nat {:trigger FrameAt(z, f)} :: FrameAt(z, f) == FrameAt(y, f)
    ensures z.ptes == y.ptes ==> forall a: nat, g: nat {:trigger PteAt(z, a, g)} :: PteAt(z, a, g) == PteAt(y, a, g)
    ensures z.flat == y.flat ==> forall a: nat, g: nat {:trigger FlatAt(z, a, g)} :: FlatAt(z, a, g) == FlatAt(y, a, g)
    ensures z.disk == y.disk ==> forall c: nat, s: int {:trigger DiskAt(z, c, s)} :: DiskAt(z, c, s) == DiskAt(y, c, s)
    ensures z.buffers == y.buffers ==> forall a: nat {:trigger BufferAt(z, a)} :: BufferAt(z, a) == BufferAt(y, a)
  {
  }

  /** Nothing the memory invariants ask of process `a` is lost from `p` to `q`. */
  ghost predicate Follows(m: Machine, a: nat, p: Pc, q: Pc) {
    && a in m.tapes && TapeOk(m.mem, a, m.tapes[a], q) && PagingOk(m.mem, a, q)
    && (Alive(q) <==> Alive(p)) && (Loading(q) ==> Loading(p))
    && BusyFrame(q) == BusyFrame(p) && LeavingFrame(q) == LeavingFrame(p)
  }

  lemma AcquireKeeps(m: Machine, a: nat, l: nat, got: Proc, waiting: Proc)
    requires Inv(m) && a in m.procs && Locks(Acquire(m, a, l, got, waiting)) && !Holds(m.procs[a], l)
    requires Follows(m, a, m.procs[a].pc, got.pc) && Follows(m, a, m.procs[a].pc, waiting.pc)
    ensures Inv(Acquire(m, a, l, got, waiting))
  {
    var r := Acquire(m, a, l, got, waiting);
    AcquireProcs(m, a, l, got, waiting) by { hide Locks, Tables, Truth, Acquire; }
    hide Tables, Truth, ProcsOk, Locks, TapeOk, PagingOk, Holds;
    AcquireView(m, a, l, got, waiting);
    hide BusyFrame, LeavingFrame, SwapPc;
    ControlKeeps(m, r);
  }

  lemma AcquireProcs(m: Machine, a: nat, l: nat, got: Proc, waiting: Proc)
    requires ProcsOk(m) && a in m.procs
    requires Follows(m, a, m.procs[a].pc, got.pc) && Follows(m, a, m.procs[a].pc, waiting.pc)
    ensures ProcsOk(Acquire(m, a, l, got, waiting))
  {
    hide TapeOk, PagingOk;
  }

  lemma AcquireView(m: Machine, a: nat, l: nat, got: Proc, waiting: Proc)
    requires Locks(m) && a in m.procs && !Holds(m.procs[a], l)
    requires Follows(m, a, m.procs[a].pc, got.pc) && Follows(m, a, m.procs[a].pc, waiting.pc)
    ensures var r := Acquire(m, a, l, got, waiting);
      BusyFrame(SwapPc(r)) == BusyFrame(SwapPc(m)) && LeavingFrame(SwapPc(r)) == LeavingFrame(SwapPc(m))
  {
    hide TapeOk, PagingOk, NoDup, WaitsFor;
    assert LockOk(m, SWAPSEM);
  }

  lemma GrantedFollows(m: Machine, b: nat)
    requires ProcsOk(m) && b in m.procs
    ensures Follows(m, b, m.procs[b].pc, Granted(b, m.procs[b]).pc)
  {
    var pc, q := m.procs[b].pc, Granted(b, m.procs[b]).pc;
    assert TapeOk(m.mem, b, m.tapes[b], pc) && PagingOk(m.mem, b, pc);
    hide ProcsOk;
    match pc
    case AwaitTape =>
    case AwaitDevice(d) =>
    case AwaitSwap(job) =>
    case Load(k, io) =>
    case Evict(g, f, io) =>
    case Fetch(g, f, io) =>
    case _ =>
  }

  lemma FreeKeeps(m: Machine, a: nat, l: nat, after: Proc)
    requires Inv(m) && a in m.procs && Locks(Free(m, a, l, after)) && Holds(m.procs[a], l) &&
      !WaitsFor(a, m.procs[a], l)
    requires Follows(m, a, m.procs[a].pc, after.pc)
    requires l == SWAPSEM ==> BusyFrame(m.procs[a].pc) == None
    ensures Inv(Free(m, a, l, after))
  {
    FreeView(m, a, l, after);
    FreeProcs(m, a, l, after);
    hide Tables, Truth, ProcsOk, Locks, BusyFrame, LeavingFrame, SwapPc, Follows, Holds, WaitsFor, SamePeople;
    ControlKeeps(m, Free(m, a, l, after));
  }

  lemma FreeProcs(m: Machine, a: nat, l: nat, after: Proc)
    requires Inv(m) && a in m.procs && Holds(m.procs[a], l) && !WaitsFor(a, m.procs[a], l)
    requires Follows(m, a, m.procs[a].pc, after.pc)
    ensures ProcsOk(Free(m, a, l, after)) && SamePeople(m, Free(m, a, l, after))
  {
    hide Tables, Truth, TapeOk, PagingOk, Granted, Holds, WaitsFor, NoDup, WellFormed, BusyFrame, LeavingFrame;
    assert LockOk(m, l);
    HeadWaits(m, a, l);
    hide Locks, LockOk;
    var q := SemAt(m, l).queue;
    if q != [] {
      GrantedFollows(m, q[0]);
    }
  }

  lemma FreeView(m: Machine, a: nat, l: nat, after: Proc)
    requires Inv(m) && a in m.procs && Holds(m.procs[a], l) && !WaitsFor(a, m.procs[a], l)
    requires Follows(m, a, m.procs[a].pc, after.pc)
    requires l == SWAPSEM ==> BusyFrame(m.procs[a].pc) == None
    ensures var r := Free(m, a, l, after);
      BusyFrame(SwapPc(r)) == BusyFrame(SwapPc(m)) && LeavingFrame(SwapPc(r)) == LeavingFrame(SwapPc(m))
  {
    hide TapeOk, PagingOk, NoDup, Tables, Truth, ProcsOk;
    assert LockOk(m, l) && LockOk(m, SWAPSEM);
    hide Locks, Inv;
    HeadWaits(m, a, l);
    var q := SemAt(m, l).queue;
    if q != [] {
      assert ProcsOk(m) by { SeeProcs(m); }
      GrantedFollows(m, q[0]);
      if l == SWAPSEM {
        assert m.procs[q[0]].pc.AwaitSwap?;
      }
    }
    hide WaitsFor, Granted;
  }

  lemma SeeProcs(m: Machine)
    requires Inv(m)
    ensures ProcsOk(m)
  {
  }

  /** The steps that ask for a lock. */
  lemma AskingStep(m: Machine, a: nat, s: Step)
    requires Inv(m) && a in m.procs && Can(m, a, s)
    requires s.StartLoad? || s.PageFault? || s.Die? || s.TakeDevice? || s.AskDisk?
    ensures Inv(Next(m, a, s))
  {
    StepLocks(m, a, s);
    var p := m.procs[a];
    AskingFollows(m, a, s);
    assert WellFormed(p);
    Unheld(m, a, s);
    hide Inv, Follows, WellFormed, Holds, Acquire;
    match s
    case StartLoad => AcquireKeeps(m, a, TapeOf(a), Proc(Tape(0), Some(TapeOf(a))), p.(pc := AwaitTape));
    case PageFault(g) => AcquireKeeps(m, a, SWAPSEM, p.(pc := InSwap(Fault(g))), p.(pc := AwaitSwap(Fault(g))));
    case Die => AcquireKeeps(m, a, SWAPSEM, p.(pc := InSwap(Death)), p.(pc := AwaitSwap(Death)));
    case TakeDevice(d) => AcquireKeeps(m, a, d, Proc(Program, Some(d)), p.(pc := AwaitDevice(d)));
    case AskDisk => AcquireKeeps(m, a, BACKINGSTORE, p.(pc := WithIo(p.pc, Seek)), p.(pc := WithIo(p.pc, Await)));
    case _ =>
  }

  lemma AskingFollows(m: Machine, a: nat, s: Step)
    requires ProcsOk(m) && a in m.procs && Can(m, a, s)
    ensures s.StartLoad? ==> Follows(m, a, m.procs[a].pc, Tape(0)) && Follows(m, a, m.procs[a].pc, AwaitTape)
    ensures s.PageFault? ==>
      Follows(m, a, m.procs[a].pc, InSwap(Fault(s.page))) && Follows(m, a, m.procs[a].pc, AwaitSwap(Fault(s.page)))
    ensures s.Die? ==> Follows(m, a, m.procs[a].pc, InSwap(Death)) && Follows(m, a, m.procs[a].pc, AwaitSwap(Death))
    ensures s.TakeDevice? ==>
      Follows(m, a, m.procs[a].pc, Program) && Follows(m, a, m.procs[a].pc, AwaitDevice(s.device))
    ensures s.AskDisk? ==>
      var pc := m.procs[a].pc; Follows(m, a, pc, WithIo(pc, Seek)) && Follows(m, a, pc, WithIo(pc, Await))
  {
    assert TapeOk(m.mem, a, m.tapes[a], m.procs[a].pc) && PagingOk(m.mem, a, m.procs[a].pc);
    hide ProcsOk, TapeOk, PagingOk, Follows;
    match s
    case StartLoad =>
      BootFollows(m, a);
    case PageFault(g) =>
      ProgramFollows(m, a, InSwap(Fault(g)));
      ProgramFollows(m, a, AwaitSwap(Fault(g)));
    case Die =>
      ProgramFollows(m, a, InSwap(Death));
      ProgramFollows(m, a, AwaitSwap(Death));
    case TakeDevice(d) =>
      ProgramFollows(m, a, Program);
      ProgramFollows(m, a, AwaitDevice(d));
    case AskDisk =>
      DiskFollows(m, a);
    case _ =>
  }

  lemma BootFollows(m: Machine, a: nat)
    requires a in m.procs && a in m.tapes && m.procs[a].pc == Boot
    requires TapeOk(m.mem, a, m.tapes[a], m.procs[a].pc) && PagingOk(m.mem, a, m.procs[a].pc)
    ensures Follows(m, a, Boot, Tape(0)) && Follows(m, a, Boot, AwaitTape)
  {
  }

  lemma ProgramFollows(m: Machine, a: nat, q: Pc)
    requires a in m.procs && a in m.tapes && m.procs[a].pc == Program
    requires TapeOk(m.mem, a, m.tapes[a], m.procs[a].pc) && PagingOk(m.mem, a, m.procs[a].pc)
    requires q.Program? || q.AwaitDevice? || q.InSwap? || q.AwaitSwap?
    requires Missing(q).Some? ==> !PteAt(m.mem, a, Missing(q).value).Valid?
    ensures Follows(m, a, Program, q)
  {
  }

  lemma DiskFollows(m: Machine, a: nat)
    requires a in m.procs && a in m.tapes && DiskStage(m.procs[a].pc) == Some(Want)
    requires TapeOk(m.mem, a, m.tapes[a], m.procs[a].pc) && PagingOk(m.mem, a, m.procs[a].pc)
    ensures var pc := m.procs[a].pc; Follows(m, a, pc, WithIo(pc, Seek)) && Follows(m, a, pc, WithIo(pc, Await))
  {
  }

  lemma Unheld(m: Machine, a: nat, s: Step)
    requires a in m.procs && WellFormed(m.procs[a]) && Can(m, a, s)
    ensures s.StartLoad? ==> !Holds(m.procs[a], TapeOf(a))
    ensures s.PageFault? || s.Die? ==> !Holds(m.procs[a], SWAPSEM)
    ensures s.TakeDevice? ==> !Holds(m.procs[a], s.device)
    ensures s.AskDisk? ==> !Holds(m.procs[a], BACKINGSTORE)
  {
  }

  /** The steps that give a lock back. */
  lemma LeavingStep(m: Machine, a: nat, s: Step)
    requires Inv(m) && a in m.procs && Can(m, a, s)
    requires s.EndLoad? || s.LeaveDevice? || s.LeaveDisk? || s.LeaveSwap?
    ensures Inv(Next(m, a, s))
  {
    StepLocks(m, a, s);
    var p := m.procs[a];
    LeavingFollows(m, a, s);
    assert WellFormed(p);
    Held(m, a, s);
    hide Inv, Follows, WellFormed, Holds, WaitsFor, Free;
    match s
    case EndLoad => FreeKeeps(m, a, p.device.value, Proc(Program, None));
    case LeaveDevice => FreeKeeps(m, a, p.device.value, Proc(Program, None));
    case LeaveDisk => FreeKeeps(m, a, BACKINGSTORE, p.(pc := AfterDisk(m, a, p.pc)));
    case LeaveSwap => FreeKeeps(m, a, SWAPSEM, p.(pc := if p.pc.Mapped? then Program else Dead));
    case _ =>
  }

  lemma LeavingFollows(m: Machine, a: nat, s: Step)
    requires ProcsOk(m) && a in m.procs && Can(m, a, s)
    ensures s.EndLoad? || s.LeaveDevice? ==> Follows(m, a, m.procs[a].pc, Program)
    ensures s.LeaveDisk? ==> Follows(m, a, m.procs[a].pc, AfterDisk(m, a, m.procs[a].pc))
    ensures s.LeaveSwap? ==> Follows(m, a, m.procs[a].pc, if m.procs[a].pc.Mapped? then Program else Dead)
  {
    assert TapeOk(m.mem, a, m.tapes[a], m.procs[a].pc) && PagingOk(m.mem, a, m.procs[a].pc);
    hide ProcsOk, SlotAt, PteAt, FrameAt, DiskAt, FlatAt, BufferAt;
    if s.LeaveDisk? {
      DiskDone(m, a);
    }
    hide AfterDisk;
  }

  lemma DiskDone(m: Machine, a: nat)
    requires a in m.procs && a in m.tapes && DiskStage(m.procs[a].pc) == Some(Release)
    requires TapeOk(m.mem, a, m.tapes[a], m.procs[a].pc) && PagingOk(m.mem, a, m.procs[a].pc)
    ensures Follows(m, a, m.procs[a].pc, AfterDisk(m, a, m.procs[a].pc))
  {
  }

  lemma Held(m: Machine, a: nat, s: Step)
    requires a in m.procs && WellFormed(m.procs[a]) && Can(m, a, s)
    ensures s.EndLoad? || s.LeaveDevice? ==>
      var l := m.procs[a].device.value; Holds(m.procs[a], l) && !WaitsFor(a, m.procs[a], l) && l != SWAPSEM
    ensures s.LeaveDisk? ==> Holds(m.procs[a], BACKINGSTORE) && !WaitsFor(a, m.procs[a], BACKINGSTORE)
    ensures s.LeaveSwap? ==>
      Holds(m.procs[a], SWAPSEM) && !WaitsFor(a, m.procs[a], SWAPSEM) && BusyFrame(m.procs[a].pc) == None
  {
  }

  // --------------------------------------------------------------- steps on data

  /** What a step on data by `a` leaves alone: everyone else, and the locks. */
  ghost predicate Alone(m: Machine, r: Machine, a: nat, pc: Pc) {
    a in m.procs && r == m.(procs := m.procs[a := m.procs[a].(pc := pc)], mem := r.mem)
  }

  lemma AloneView(m: Machine, r: Machine, a: nat, pc: Pc)
    requires Locks(m) && Alone(m, r, a, pc) && (HoldsSwap(pc) <==> HoldsSwap(m.procs[a].pc))
    ensures SwapPc(r) == if HoldsSwap(pc) then pc else SwapPc(m)
    ensures forall b :: b in m.procs && b != a ==> r.procs[b] == m.procs[b]
    ensures HoldsSwap(pc) ==> forall b :: b in m.procs && b != a ==> BusyFrame(m.procs[b].pc) == None
  {
    assert LockOk(m, SWAPSEM);
    hide NoDup, WaitsFor;
  }

  lemma ChooseStep(m: Machine, a: nat)
    requires Inv(m) && a in m.procs && Can(m, a, Choose)
    ensures Inv(Next(m, a, Choose))
  {
    StepLocks(m, a, Choose);
    var pc, r := m.procs[a].pc, Next(m, a, Choose);
    AloneView(m, r, a, r.procs[a].pc);
    SwapperIs(m, a);
    Views(m.mem, r.mem);
    assert ProcsOk(r) by { hide SlotAt, PteAt, FlatAt, DiskAt, FrameAt, Locks, Tables, Truth; }
    hide Locks, Tables, Truth, ProcsOk;
    ControlKeeps(m, r);
  }

  lemma TablesFrame(m: Machine, r: Machine)
    requires Tables(m) && SamePeople(m, r) && BusyFrame(SwapPc(r)) == BusyFrame(SwapPc(m))
    requires r.mem.slots == m.mem.slots && r.mem.ptes == m.mem.ptes && r.mem.tlb == m.mem.tlb
    ensures Tables(r)
  {
    Views(m.mem, r.mem);
    hide SlotAt, PteAt, SwapPc, BusyFrame, Alive, Loading;
  }

  lemma TruthFrame(m: Machine, r: Machine)
    requires Truth(m.procs, m.mem, LeavingFrame(SwapPc(m))) && SamePeople(m, r)
    requires LeavingFrame(SwapPc(r)) == LeavingFrame(SwapPc(m))
    requires r.mem.slots == m.mem.slots && r.mem.ptes == m.mem.ptes && r.mem.frames == m.mem.frames
    requires r.mem.disk == m.mem.disk && r.mem.flat == m.mem.flat
    ensures Truth(r.procs, r.mem, LeavingFrame(SwapPc(r)))
  {
    Views(m.mem, r.mem);
    hide SlotAt, PteAt, FrameAt, DiskAt, FlatAt, SwapPc, LeavingFrame, Alive;
  }

  /** What process `x` relies on, when neither its flat memory nor its buffer
      changes and nothing it is moving does. */
  ghost predicate Undisturbed(y: Memory, z: Memory, x: nat, pc: Pc) {
    && BufferAt(z, x) == BufferAt(y, x)
    && (forall g: nat {:trigger FlatAt(z, x, g)} :: FlatAt(z, x, g) == FlatAt(y, x, g))
    && (forall g: nat :: (x, g) in z.touched <==> (x, g) in y.touched)
    && (Missing(pc).Some? ==> PteAt(z, x, Missing(pc).value) == PteAt(y, x, Missing(pc).value))
    && (HoldsDisk(pc) ==> z.arm == y.arm)
    && (BusyFrame(pc).Some? ==>
       SlotAt(z, pc.frame) == SlotAt(y, pc.frame) && FrameAt(z, pc.frame) == FrameAt(y, pc.frame))
    && (pc.Evict? ==> var s := SlotAt(y, pc.frame);
          s.Occupied? ==> DiskAt(z, s.page, s.asid - 1) == DiskAt(y, s.page, s.asid - 1))
    && (pc.Fetch? || pc.Fetched? ==> DiskAt(z, pc.page, x - 1) == DiskAt(y, pc.page, x - 1))
  }

  lemma UndisturbedOk(y: Memory, z: Memory, x: nat, tape: seq<Page>, pc: Pc)
    requires TapeOk(y, x, tape, pc) && PagingOk(y, x, pc) && Undisturbed(y, z, x, pc)
    ensures TapeOk(z, x, tape, pc) && PagingOk(z, x, pc)
  {
    hide FlatAt, PteAt, BufferAt, BlocksIn, SlotAt, FrameAt, DiskAt;
  }

  lemma OthersOk(m: Machine, r: Machine, a: nat, pc: Pc)
    requires ProcsOk(m) && Alone(m, r, a, pc)
    requires forall x :: x in m.procs && x != a ==> Undisturbed(m.mem, r.mem, x, m.procs[x].pc)
    requires TapeOk(r.mem, a, r.tapes[a], pc) && PagingOk(r.mem, a, pc)
    ensures ProcsOk(r)
  {
    hide TapeOk, PagingOk, Undisturbed;
    forall x | x in r.procs
      ensures x in r.tapes && TapeOk(r.mem, x, r.tapes[x], r.procs[x].pc) && PagingOk(r.mem, x, r.procs[x].pc)
    {
      if x != a {
        UndisturbedOk(m.mem, r.mem, x, m.tapes[x], m.procs[x].pc);
      }
    }
  }

  lemma ReadTapeStep(m: Machine, a: nat)
    requires Inv(m) && a in m.procs && Can(m, a, ReadTape)
    ensures Inv(Next(m, a, ReadTape))
  {
    StepLocks(m, a, ReadTape);
    var r := Next(m, a, ReadTape);
    AloneView(m, r, a, r.procs[a].pc);
    TablesFrame(m, r);
    TruthFrame(m, r);
    ReadTapeProcs(m, r, a, m.procs[a].pc.block);
  }

  lemma ReadTapeProcs(m: Machine, r: Machine, a: nat, k: nat)
    requires ProcsOk(m) && a in m.procs && m.procs[a].pc == Tape(k) && k < |m.tapes[a]|
    requires Alone(m, r, a, Load(k, Want)) && r.mem == m.mem.(buffers := m.mem.buffers[a := m.tapes[a][k]])
    ensures ProcsOk(r)
  {
    Views(m.mem, r.mem);
    assert forall x: nat {:trigger BufferAt(r.mem, x)} ::
      BufferAt(r.mem, x) == if x == a then m.tapes[a][k] else BufferAt(m.mem, x);
    assert TapeOk(m.mem, a, m.tapes[a], m.procs[a].pc) && PagingOk(m.mem, a, m.procs[a].pc);
    hide ProcsOk, SlotAt, FrameAt, PteAt, FlatAt, DiskAt, BufferAt;
    assert TapeOk(r.mem, a, m.tapes[a], r.procs[a].pc) && PagingOk(r.mem, a, r.procs[a].pc);
    hide TapeOk, PagingOk;
    OthersOk(m, r, a, r.procs[a].pc);
  }

  lemma RefillStep(m: Machine, a: nat, g: nat)
    requires Inv(m) && a in m.procs && Can(m, a, Refill(g))
    ensures Inv(Next(m, a, Refill(g)))
  {
    StepLocks(m, a, Refill(g));
    var r := Next(m, a, Refill(g));
    TruthFrame(m, r);
    assert m.procs == m.procs[a := m.procs[a].(pc := m.procs[a].pc)];
    RefillTables(m, r, a, g);
    RefillProcs(m, r, a);
  }

  lemma RefillTables(m: Machine, r: Machine, a: nat, g: nat)
    requires Tables(m) && a in m.procs && Can(m, a, Refill(g)) && r == Next(m, a, Refill(g))
    ensures Tables(r)
  {
    Views(m.mem, r.mem);
    assert SwapPc(r) == SwapPc(m);
    hide SlotAt, PteAt, SwapPc;
  }

  lemma RefillProcs(m: Machine, r: Machine, a: nat)
    requires ProcsOk(m) && a in m.procs && Alone(m, r, a, m.procs[a].pc) && r.mem == m.mem.(tlb := r.mem.tlb)
    ensures ProcsOk(r)
  {
    Views(m.mem, r.mem);
    hide SlotAt, FrameAt, PteAt, FlatAt, DiskAt, BufferAt;
    assert TapeOk(m.mem, a, m.tapes[a], m.procs[a].pc) && PagingOk(m.mem, a, m.procs[a].pc);
    hide ProcsOk;
    assert TapeOk(r.mem, a, m.tapes[a], r.procs[a].pc) && PagingOk(r.mem, a, r.procs[a].pc);
    hide TapeOk, PagingOk, DiskStage;
    OthersOk(m, r, a, r.procs[a].pc);
  }

  // -------------------------------------------------------------------- storing

  /** The frame a translation leads to is not being turned over. */
  lemma HitFrame(m: Machine, a: nat, g: nat)
    requires Tables(m) && (a, g) in m.mem.tlb
    ensures var f := m.mem.tlb[(a, g)]; PteAt(m.mem, a, g) == Valid(f) && SlotAt(m.mem, f) == Occupied(a, g)
    ensures BusyFrame(SwapPc(m)) != Some(m.mem.tlb[(a, g)])
  {
    hide SwapPc, BusyFrame;
  }

  lemma StoreStep(m: Machine, a: nat, g: nat, i: nat, v: int)
    requires Inv(m) && a in m.procs && Can(m, a, Store(g, i, v))
    ensures Inv(Next(m, a, Store(g, i, v)))
  {
    StepLocks(m, a, Store(g, i, v));
    var r := Next(m, a, Store(g, i, v));
    HitFrame(m, a, g);
    assert m.procs == m.procs[a := m.procs[a].(pc := m.procs[a].pc)];
    TablesFrame(m, r);
    StoreTruth(m, r, a, g, i, v);
    StoreProcs(m, r, a, g, i, v);
  }

  ghost predicate Stored(m: Machine, r: Machine, a: nat, g: nat, i: nat, v: int) {
    && a in m.procs && Can(m, a, Store(g, i, v)) && r == Next(m, a, Store(g, i, v))
  }

  lemma StoredWhere(m: Machine, r: Machine, a: nat, g: nat, i: nat, v: int)
    requires Stored(m, r, a, g, i, v)
    ensures a in m.procs && m.procs[a].pc.Program? && (a, g) in m.mem.tlb
  {
    hide Next;
  }

  lemma StoredView(m: Machine, r: Machine, a: nat, g: nat, i: nat, v: int)
    requires Stored(m, r, a, g, i, v)
    ensures var f := m.mem.tlb[(a, g)];
      && (forall e: nat {:trigger FrameAt(r.mem, e)} :: FrameAt(r.mem, e) == if e == f then FrameAt(m.mem,
         f)[i := v] else FrameAt(m.mem, e))
      && (forall b: nat, h: nat {:trigger FlatAt(r.mem, b, h)} ::
            FlatAt(r.mem, b, h) == if b == a && h == g then FlatAt(m.mem, a, g)[i := v] else FlatAt(m.mem, b, h))
      && r.mem == m.mem.(frames := r.mem.frames, flat := r.mem.flat, touched := m.mem.touched + {(a, g)})
      && r == m.(mem := r.mem)
  {
  }

  lemma StoreTruth(m: Machine, r: Machine, a: nat, g: nat, i: nat, v: int)
    requires Tables(m) && Truth(m.procs, m.mem, LeavingFrame(SwapPc(m))) && Stored(m, r, a, g, i, v)
    ensures Truth(r.procs, r.mem, LeavingFrame(SwapPc(r)))
  {
    hide Stored, Next, Can;
    StoredWhere(m, r, a, g, i, v);
    StoredView(m, r, a, g, i, v);
    HitFrame(m, a, g);
    Views(m.mem, r.mem);
    assert SwapPc(r) == SwapPc(m);
    assert LeavingFrame(SwapPc(m)).Some? ==> LeavingFrame(SwapPc(m)) == BusyFrame(SwapPc(m));
    hide FrameAt, FlatAt, SlotAt, PteAt, DiskAt, SwapPc, BusyFrame, LeavingFrame;
    var leaving := LeavingFrame(SwapPc(m));
    forall b: nat, h: nat {:trigger FlatAt(r.mem, b, h)} | b in r.procs && Alive(r.procs[b].pc)
      ensures Contents(r.mem, leaving, b, h) == FlatAt(r.mem, b, h)
    {
      assert Contents(m.mem, leaving, b, h) == FlatAt(m.mem, b, h);
    }
  }

  /** Frames are turned over by the process that holds `swapSem` alone. */
  ghost predicate SwapOnly(m: Machine) {
    forall x :: x in m.procs && BusyFrame(m.procs[x].pc).Some? ==> SwapPc(m) == m.procs[x].pc
  }

  lemma SwapsAlone(m: Machine)
    requires Locks(m)
    ensures SwapOnly(m)
  {
    hide Locks, SwapPc;
    forall x | x in m.procs && BusyFrame(m.procs[x].pc).Some?
      ensures SwapPc(m) == m.procs[x].pc
    {
      SwapperIs(m, x);
    }
  }

  lemma StoreProcs(m: Machine, r: Machine, a: nat, g: nat, i: nat, v: int)
    requires Locks(m) && Tables(m) && ProcsOk(m) && Stored(m, r, a, g, i, v)
    ensures ProcsOk(r)
  {
    hide Stored, Next, Can;
    StoredWhere(m, r, a, g, i, v);
    StoreLeavesOthers(m, r, a, g, i, v);
    StoredView(m, r, a, g, i, v);
    hide Locks, Tables, Undisturbed;
    Views(m.mem, r.mem);
    assert TapeOk(m.mem, a, m.tapes[a], m.procs[a].pc) && PagingOk(m.mem, a, m.procs[a].pc);
    hide ProcsOk, SlotAt, FrameAt, PteAt, FlatAt, DiskAt, BufferAt;
    assert TapeOk(r.mem, a, m.tapes[a], m.procs[a].pc) && PagingOk(r.mem, a, m.procs[a].pc);
    hide TapeOk, PagingOk;
    assert m.procs == m.procs[a := m.procs[a].(pc := m.procs[a].pc)];
    OthersOk(m, r, a, m.procs[a].pc);
  }

  lemma StoreLeavesOthers(m: Machine, r: Machine, a: nat, g: nat, i: nat, v: int)
    requires Locks(m) && Tables(m) && Stored(m, r, a, g, i, v)
    ensures forall x :: x in m.procs && x != a ==> Undisturbed(m.mem, r.mem, x, m.procs[x].pc)
  {
    hide Stored, Next, Can;
    StoredWhere(m, r, a, g, i, v);
    StoredView(m, r, a, g, i, v);
    HitFrame(m, a, g);
    Views(m.mem, r.mem);
    SwapsAlone(m);
    hide Locks, Tables, SwapPc, SlotAt, FrameAt, PteAt, FlatAt, DiskAt, BufferAt;
  }

  // ---------------------------------------------------------- the backing store

  lemma SeekIs(m: Machine, a: nat)
    requires a in m.procs && Can(m, a, SeekDisk)
    ensures var r := Next(m, a, SeekDisk);
      && Alone(m, r, a, WithIo(m.procs[a].pc, Transfer)) && DiskStage(m.procs[a].pc) == Some(Seek)
      && r.mem == m.mem.(arm := Cylinder(m.mem, m.procs[a].pc))
  {
    hide Cylinder;
  }

  lemma SeekStep(m: Machine, a: nat)
    requires Inv(m) && a in m.procs && Can(m, a, SeekDisk)
    ensures Inv(Next(m, a, SeekDisk))
  {
    StepLocks(m, a, SeekDisk);
    var r := Next(m, a, SeekDisk);
    SeekIs(m, a);
    hide Next, Can, Tables, Truth, ProcsOk, Locks, Cylinder;
    AloneView(m, r, a, r.procs[a].pc);
    SwapperIs(m, a);
    TablesFrame(m, r);
    TruthFrame(m, r);
    SeekProcs(m, r, a);
  }

  lemma SeekProcs(m: Machine, r: Machine, a: nat)
    requires ProcsOk(m) && a in m.procs && Alone(m, r, a, WithIo(m.procs[a].pc, Transfer)) &&
      DiskStage(m.procs[a].pc) == Some(Seek)
    requires r.mem == m.mem.(arm := Cylinder(m.mem, m.procs[a].pc))
    requires forall x :: x in m.procs && x != a ==> !HoldsDisk(m.procs[x].pc)
    ensures ProcsOk(r)
  {
    Views(m.mem, r.mem);
    hide SlotAt, FrameAt, PteAt, FlatAt, DiskAt, BufferAt;
    assert TapeOk(m.mem, a, m.tapes[a], m.procs[a].pc) && PagingOk(m.mem, a, m.procs[a].pc);
    hide ProcsOk;
    assert TapeOk(r.mem, a, m.tapes[a], r.procs[a].pc) && PagingOk(r.mem, a, r.procs[a].pc);
    hide TapeOk, PagingOk, DiskStage;
    OthersOk(m, r, a, r.procs[a].pc);
  }

  /** The frame's page is struck from its owner's table and from the translations. */
  lemma ClearStep(m: Machine, a: nat)
    requires Inv(m) && a in m.procs && Can(m, a, Clear)
    ensures Inv(Next(m, a, Clear))
  {
    StepLocks(m, a, Clear);
    var r := Next(m, a, Clear);
    AloneView(m, r, a, r.procs[a].pc);
    SwapperIs(m, a);
    assert Tables(r) by { ClearTables(m, r, a); }
    assert Truth(r.procs, r.mem, LeavingFrame(SwapPc(r))) by { ClearTruth(m, r, a); }
    ClearProcs(m, r, a);
  }

  /** The step's outcome, spelt out. */
  ghost predicate Cleared(m: Machine, r: Machine, a: nat) {
    && a in m.procs && m.procs[a].pc.Chosen?
    && SwapPc(m) == m.procs[a].pc
    && var f, g, s := m.procs[a].pc.frame, m.procs[a].pc.page, SlotAt(m.mem, m.procs[a].pc.frame);
    && r.procs == m.procs[a := m.procs[a].(pc := if s.Empty? then Fetch(g, f, Want) else Evict(g, f, Want))]
    && SwapPc(r) == r.procs[a].pc
    && r.mem == m.mem.(ptes := r.mem.ptes, tlb := if s.Empty? then m.mem.tlb else map[])
    && (forall b: nat, h: nat {:trigger PteAt(r.mem, b, h)} ::
          PteAt(r.mem, b, h) == if s == Occupied(b, h) then Invalid else PteAt(m.mem, b, h))
  }

  lemma ClearedIs(m: Machine, r: Machine, a: nat)
    requires Locks(m) && a in m.procs && Can(m, a, Clear) && r == Next(m, a, Clear)
    ensures Cleared(m, r, a)
  {
    AloneView(m, r, a, r.procs[a].pc);
    SwapperIs(m, a);
    hide Locks, SwapPc;
  }

  lemma ClearTables(m: Machine, r: Machine, a: nat)
    requires Locks(m) && Tables(m) && a in m.procs && Can(m, a, Clear) && r == Next(m, a, Clear)
    ensures Tables(r)
  {
    ClearedIs(m, r, a);
    Views(m.mem, r.mem);
    hide Locks, SlotAt, PteAt, SwapPc, Next, Can;
  }

  lemma ClearTruth(m: Machine, r: Machine, a: nat)
    requires Locks(m) && Tables(m) && Truth(m.procs, m.mem, LeavingFrame(SwapPc(m)))
    requires a in m.procs && Can(m, a, Clear) && r == Next(m, a, Clear)
    ensures Truth(r.procs, r.mem, LeavingFrame(SwapPc(r)))
  {
    ClearedIs(m, r, a);
    Views(m.mem, r.mem);
    hide Locks, SlotAt, PteAt, FrameAt, DiskAt, FlatAt, SwapPc, Next, Can;
    var leaving := LeavingFrame(SwapPc(r));
    forall b: nat, h: nat {:trigger FlatAt(r.mem, b, h)} | b in r.procs && Alive(r.procs[b].pc)
      ensures Contents(r.mem, leaving, b, h) == FlatAt(r.mem, b, h)
    {
      assert Contents(m.mem, None, b, h) == FlatAt(m.mem, b, h);
    }
  }

  lemma ClearProcs(m: Machine, r: Machine, a: nat)
    requires Locks(m) && Tables(m) && ProcsOk(m) && a in m.procs && Can(m, a, Clear) && r == Next(m, a, Clear)
    ensures ProcsOk(r)
  {
    ClearedIs(m, r, a);
    SwapperIs(m, a);
    Views(m.mem, r.mem);
    assert TapeOk(m.mem, a, m.tapes[a], m.procs[a].pc) && PagingOk(m.mem, a, m.procs[a].pc);
    hide Locks, SlotAt, PteAt, FrameAt, DiskAt, FlatAt, SwapPc, Next, Can;
    forall x | x in m.procs
      ensures x in r.tapes && TapeOk(r.mem, x, r.tapes[x], r.procs[x].pc) && PagingOk(r.mem, x, r.procs[x].pc)
    {
      assert TapeOk(m.mem, x, m.tapes[x], m.procs[x].pc) && PagingOk(m.mem, x, m.procs[x].pc);
    }
  }

  // --------------------------------------------------------------- moving blocks

  /** A block off the tape, out of its buffer, reaches its sector. */
  lemma LoadMove(m: Machine, a: nat)
    requires Inv(m) && a in m.procs && Can(m, a, MoveBlock) && m.procs[a].pc.Load?
    ensures Inv(Next(m, a, MoveBlock))
  {
    hide Truth, ProcsOk, Locks, Tables, BlockLoaded, Next, Can;
    StepLocks(m, a, MoveBlock);
    var r := Next(m, a, MoveBlock);
    LoadTruth(m, r, a);
    BlockLoadedIs(m, r, a);
    SwapsAlone(m);
    BlockLoadedKeeps(m, r, a);
    LoadTables(m, r, a);
    LoadProcs(m, r, a);
  }

  ghost predicate BlockLoaded(m: Machine, r: Machine, a: nat) {
    && a in m.procs && a >= 1 && m.procs[a].pc.Load?
    && r.procs == m.procs[a := m.procs[a].(pc := Load(m.procs[a].pc.block, Release))]
    && r.mem == m.mem.(disk := r.mem.disk, flat := r.mem.flat)
    && (forall c: nat, s: int {:trigger DiskAt(r.mem, c, s)} ::
          DiskAt(r.mem, c, s) == if c == m.procs[a].pc.block &&
            s == a - 1 then BufferAt(m.mem, a) else DiskAt(m.mem, c, s))
    && (forall b: nat, g: nat {:trigger FlatAt(r.mem, b, g)} ::
          FlatAt(r.mem, b, g) == if b == a && g == m.procs[a].pc.block then BufferAt(m.mem, a) else FlatAt(m.mem, b, g))
  }

  lemma BlockLoadedIs(m: Machine, r: Machine, a: nat)
    requires Locks(m) && ProcsOk(m) && a in m.procs && Can(m, a, MoveBlock) && m.procs[a].pc.Load? &&
      r == Next(m, a, MoveBlock)
    ensures BlockLoaded(m, r, a)
  {
    assert PagingOk(m.mem, a, m.procs[a].pc) && 1 <= a;
    hide ProcsOk, TapeOk, Locks, Acquire, Free, Struck, AfterDisk, Cylinder, SlotAt, PteAt, FrameAt, TapeOf;
    var y, k := m.mem, m.procs[a].pc.block;
    assert y.arm == k;
    assert r.mem.disk == y.disk[(k, a - 1) := BufferAt(y, a)] && r.mem.flat == y.flat[(a, k) := BufferAt(y, a)];
    LoadedView(y, r.mem, a, k);
    hide DiskAt, FlatAt, BufferAt, PagingOk;
  }

  lemma LoadedView(y: Memory, z: Memory, a: nat, k: nat)
    requires a >= 1 && z.disk == y.disk[(k, a - 1) := BufferAt(y, a)] && z.flat == y.flat[(a, k) := BufferAt(y, a)]
    ensures forall c: nat, s: int {:trigger DiskAt(z, c, s)} ::
      DiskAt(z, c, s) == if c == k && s == a - 1 then BufferAt(y, a) else DiskAt(y, c, s)
    ensures forall b: nat, g: nat {:trigger FlatAt(z, b, g)} ::
      FlatAt(z, b, g) == if b == a && g == k then BufferAt(y, a) else FlatAt(y, b, g)
  {
  }

  lemma BlockLoadedKeeps(m: Machine, r: Machine, a: nat)
    requires a in m.procs && Can(m, a, MoveBlock) && m.procs[a].pc.Load? && r == Next(m, a, MoveBlock)
    ensures r.tapes == m.tapes && r.sems == m.sems && r.swapSize == m.swapSize
  {
    hide Moved;
  }

  lemma LoadTables(m: Machine, r: Machine, a: nat)
    requires Locks(m) && Tables(m) && BlockLoaded(m, r, a)
    requires r.tapes == m.tapes && r.sems == m.sems && r.swapSize == m.swapSize
    ensures Tables(r)
  {
    assert Alone(m, r, a, r.procs[a].pc);
    AloneView(m, r, a, r.procs[a].pc);
    hide Locks, Tables;
    TablesFrame(m, r);
  }

  lemma LoadTruth(m: Machine, r: Machine, a: nat)
    requires Locks(m) && ProcsOk(m) && Tables(m) && Truth(m.procs, m.mem, LeavingFrame(SwapPc(m)))
    requires a in m.procs && Can(m, a, MoveBlock) && m.procs[a].pc.Load? && r == Next(m, a, MoveBlock)
    ensures Truth(r.procs, r.mem, LeavingFrame(SwapPc(r)))
  {
    BlockLoadedIs(m, r, a);
    AloneView(m, r, a, r.procs[a].pc);
    assert SlotsOk(m.procs, m.mem, BusyFrame(SwapPc(m))) && PtesOk(m.procs, m.mem);
    hide Next, Can, Locks, Tables, ProcsOk, SlotsOk, PtesOk, Truth, BlockLoaded, BusyFrame;
    LoadedTruth(m, r, a, BusyFrame(SwapPc(m)), LeavingFrame(SwapPc(m)));
  }

  lemma LoadedTruth(m: Machine, r: Machine, a: nat, busy: Option<nat>, leaving: Option<nat>)
    requires BlockLoaded(m, r, a) && SlotsOk(m.procs, m.mem, busy) && PtesOk(m.procs, m.mem) &&
      Truth(m.procs, m.mem, leaving)
    ensures Truth(r.procs, r.mem, leaving)
  {
    Views(m.mem, r.mem);
    hide SlotAt, PteAt, FrameAt, DiskAt, FlatAt, BufferAt;
    forall b: nat, h: nat {:trigger FlatAt(r.mem, b, h)} | b in r.procs && Alive(r.procs[b].pc)
      ensures Contents(r.mem, leaving, b, h) == FlatAt(r.mem, b, h)
    {
      assert Contents(m.mem, leaving, b, h) == FlatAt(m.mem, b, h);
    }
  }

  lemma LoadProcs(m: Machine, r: Machine, a: nat)
    requires ProcsOk(m) && Tables(m) && BlockLoaded(m, r, a) && r.tapes == m.tapes && r.sems == m.sems &&
      r.swapSize == m.swapSize
    requires SwapOnly(m)
    ensures ProcsOk(r)
  {
    assert TapeOk(m.mem, a, m.tapes[a], m.procs[a].pc) by { hide Tables, BlockLoaded; }
    LoadedProc(m, r, a);
    LoadLeavesOthers(m, r, a);
    assert r.procs[a].pc == Load(m.procs[a].pc.block, Release) && Alone(m, r, a, r.procs[a].pc) by { hide Tables; }
    hide TapeOk, PagingOk, Undisturbed, Tables, BlockLoaded;
    OthersOk(m, r, a, r.procs[a].pc);
  }

  lemma LoadedProc(m: Machine, r: Machine, a: nat)
    requires BlockLoaded(m, r, a) && a in m.tapes && TapeOk(m.mem, a, m.tapes[a], m.procs[a].pc)
    ensures TapeOk(r.mem, a, m.tapes[a], r.procs[a].pc) && PagingOk(r.mem, a, r.procs[a].pc)
  {
    Views(m.mem, r.mem);
    hide SlotAt, FrameAt, PteAt, FlatAt, DiskAt, BufferAt;
  }

  lemma LoadLeavesOthers(m: Machine, r: Machine, a: nat)
    requires Tables(m) && BlockLoaded(m, r, a) && SwapOnly(m)
    ensures forall x :: x in m.procs && x != a ==> Undisturbed(m.mem, r.mem, x, m.procs[x].pc)
  {
    Views(m.mem, r.mem);
    hide SlotAt, FrameAt, PteAt, FlatAt, DiskAt, BufferAt, SwapPc, PtesOk, TlbOk;
  }

  /** The page that leaves its frame reaches its sector. */
  lemma EvictMove(m: Machine, a: nat)
    requires Inv(m) && a in m.procs && Can(m, a, MoveBlock) && m.procs[a].pc.Evict?
    ensures Inv(Next(m, a, MoveBlock))
  {
    StepLocks(m, a, MoveBlock);
    var r := Next(m, a, MoveBlock);
    EvictedIs(m, r, a);
    assert SamePeople(m, r) by { hide Locks, Tables, Truth, ProcsOk; }
    assert BusyFrame(SwapPc(r)) == BusyFrame(SwapPc(m));
    TablesFrame(m, r);
    EvictTruth(m, r, a);
    EvictProcs(m, r, a);
  }

  ghost predicate PageOut(m: Machine, r: Machine, a: nat) {
    && a in m.procs && m.procs[a].pc.Evict? && SwapPc(m) == m.procs[a].pc && m.procs[a].pc.io.Transfer?
    && var f, g, s := m.procs[a].pc.frame, m.procs[a].pc.page, SlotAt(m.mem, m.procs[a].pc.frame);
    && s.Occupied? && s.asid >= 1 && s.asid in m.procs && !Loading(m.procs[s.asid].pc)
    && r.procs == m.procs[a := m.procs[a].(pc := Evict(g, f, Release))] && SwapPc(r) == r.procs[a].pc
    && r.mem == m.mem.(disk := r.mem.disk) && r.tapes == m.tapes
    && (forall c: nat, t: int {:trigger DiskAt(r.mem, c, t)} ::
          DiskAt(r.mem, c, t) == if c == s.page && t == s.asid - 1 then FrameAt(m.mem, f) else DiskAt(m.mem, c, t))
  }

  lemma EvictedIs(m: Machine, r: Machine, a: nat)
    requires Locks(m) && ProcsOk(m) && Tables(m)
    requires a in m.procs && Can(m, a, MoveBlock) && m.procs[a].pc.Evict? && r == Next(m, a, MoveBlock)
    ensures PageOut(m, r, a)
  {
    assert PagingOk(m.mem, a, m.procs[a].pc);
    SwapperIs(m, a);
    AloneView(m, r, a, r.procs[a].pc);
    hide ProcsOk, TapeOk, LockOk, SwapPc, PtesOk, TlbOk;
  }

  lemma EvictTruth(m: Machine, r: Machine, a: nat)
    requires Truth(m.procs, m.mem, LeavingFrame(SwapPc(m))) && Tables(m) && PageOut(m, r, a)
    ensures Truth(r.procs, r.mem, LeavingFrame(SwapPc(r)))
  {
    Views(m.mem, r.mem);
    hide SlotAt, PteAt, FrameAt, DiskAt, FlatAt, SwapPc;
    var leaving := LeavingFrame(SwapPc(m));
    forall b: nat, h: nat {:trigger FlatAt(r.mem, b, h)} | b in r.procs && Alive(r.procs[b].pc)
      ensures Contents(r.mem, None, b, h) == FlatAt(r.mem, b, h)
    {
      assert Contents(m.mem, leaving, b, h) == FlatAt(m.mem, b, h);
    }
  }

  lemma EvictProcs(m: Machine, r: Machine, a: nat)
    requires Locks(m) && ProcsOk(m) && PageOut(m, r, a)
    ensures ProcsOk(r)
  {
    SwapperIs(m, a);
    Views(m.mem, r.mem);
    hide Locks, SlotAt, PteAt, FrameAt, DiskAt, FlatAt, BufferAt, SwapPc;
    forall x | x in m.procs
      ensures x in r.tapes && TapeOk(r.mem, x, r.tapes[x], r.procs[x].pc) && PagingOk(r.mem, x, r.procs[x].pc)
    {
      assert TapeOk(m.mem, x, m.tapes[x], m.procs[x].pc) && PagingOk(m.mem, x, m.procs[x].pc);
    }
  }

  /** The missing page comes into the frame. */
  lemma FetchMove(m: Machine, a: nat)
    requires Inv(m) && a in m.procs && Can(m, a, MoveBlock) && m.procs[a].pc.Fetch?
    ensures Inv(Next(m, a, MoveBlock))
  {
    StepLocks(m, a, MoveBlock);
    var r := Next(m, a, MoveBlock);
    FetchedIs(m, r, a);
    assert SamePeople(m, r) by { hide Locks, Tables, Truth, ProcsOk; }
    assert BusyFrame(SwapPc(r)) == BusyFrame(SwapPc(m));
    TablesFrame(m, r);
    FetchTruth(m, r, a);
    FetchProcs(m, r, a);
  }

  ghost predicate PageIn(m: Machine, r: Machine, a: nat) {
    && a in m.procs && m.procs[a].pc.Fetch? && SwapPc(m) == m.procs[a].pc && m.procs[a].pc.io.Transfer?
    && var f, g := m.procs[a].pc.frame, m.procs[a].pc.page;
    && r.procs == m.procs[a := m.procs[a].(pc := Fetch(g, f, Release))] && SwapPc(r) == r.procs[a].pc
    && r.mem == m.mem.(frames := r.mem.frames) && r.tapes == m.tapes
    && (forall e: nat {:trigger FrameAt(r.mem, e)} ::
          FrameAt(r.mem, e) == if e == f then DiskAt(m.mem, g, a - 1) else FrameAt(m.mem, e))
  }

  lemma FetchedIs(m: Machine, r: Machine, a: nat)
    requires Locks(m) && ProcsOk(m) && a in m.procs && Can(m, a, MoveBlock) && m.procs[a].pc.Fetch? &&
      r == Next(m, a, MoveBlock)
    ensures PageIn(m, r, a)
  {
    assert PagingOk(m.mem, a, m.procs[a].pc);
    SwapperIs(m, a);
    AloneView(m, r, a, r.procs[a].pc);
    hide ProcsOk, TapeOk, LockOk, SwapPc;
  }

  lemma FetchTruth(m: Machine, r: Machine, a: nat)
    requires Truth(m.procs, m.mem, LeavingFrame(SwapPc(m))) && Tables(m) && PageIn(m, r, a)
    ensures Truth(r.procs, r.mem, LeavingFrame(SwapPc(r)))
  {
    Views(m.mem, r.mem);
    hide SlotAt, PteAt, FrameAt, DiskAt, FlatAt, SwapPc;
    forall b: nat, h: nat {:trigger FlatAt(r.mem, b, h)} | b in r.procs && Alive(r.procs[b].pc)
      ensures Contents(r.mem, None, b, h) == FlatAt(r.mem, b, h)
    {
      assert Contents(m.mem, None, b, h) == FlatAt(m.mem, b, h);
    }
  }

  lemma FetchProcs(m: Machine, r: Machine, a: nat)
    requires Locks(m) && ProcsOk(m) && PageIn(m, r, a)
    ensures ProcsOk(r)
  {
    SwapperIs(m, a);
    Views(m.mem, r.mem);
    hide Locks, SlotAt, PteAt, FrameAt, DiskAt, FlatAt, BufferAt, SwapPc;
    forall x | x in m.procs
      ensures x in r.tapes && TapeOk(r.mem, x, r.tapes[x], r.procs[x].pc) && PagingOk(r.mem, x, r.procs[x].pc)
    {
      assert TapeOk(m.mem, x, m.tapes[x], m.procs[x].pc) && PagingOk(m.mem, x, m.procs[x].pc);
    }
  }

  // ------------------------------------------------------------ mapping, sweeping

  /** The page is in its frame: the swap pool and the table come to say so. */
  lemma MapStep(m: Machine, a: nat)
    requires Inv(m) && a in m.procs && Can(m, a, Map)
    ensures Inv(Next(m, a, Map))
  {
    StepLocks(m, a, Map);
    var r := Next(m, a, Map);
    MappedIs(m, r, a);
    MapTables(m, r, a);
    MapTruth(m, r, a);
    MapProcs(m, r, a);
  }

  ghost predicate PageMapped(m: Machine, r: Machine, a: nat) {
    && a in m.procs && m.procs[a].pc.Fetched? && SwapPc(m) == m.procs[a].pc
    && var f, g := m.procs[a].pc.frame, m.procs[a].pc.page;
    && r.procs == m.procs[a := m.procs[a].(pc := Mapped)] && SwapPc(r) == Mapped && r.tapes == m.tapes
    && !PteAt(m.mem, a, g).Valid? && FrameAt(m.mem, f) == DiskAt(m.mem, g, a - 1)
    && r.mem == m.mem.(slots := r.mem.slots, ptes := r.mem.ptes, tlb := map[])
    && (forall e: nat {:trigger SlotAt(r.mem, e)} ::
       SlotAt(r.mem, e) == if e == f then Occupied(a, g) else SlotAt(m.mem, e))
    && (forall b: nat, h: nat {:trigger PteAt(r.mem, b, h)} ::
          PteAt(r.mem, b, h) == if b == a && h == g then Valid(f) else PteAt(m.mem, b, h))
  }

  lemma MappedIs(m: Machine, r: Machine, a: nat)
    requires Locks(m) && ProcsOk(m) && a in m.procs && Can(m, a, Map) && r == Next(m, a, Map)
    ensures PageMapped(m, r, a)
  {
    assert PagingOk(m.mem, a, m.procs[a].pc);
    SwapperIs(m, a);
    AloneView(m, r, a, r.procs[a].pc);
    hide ProcsOk, TapeOk, LockOk, SwapPc;
  }

  lemma MapTables(m: Machine, r: Machine, a: nat)
    requires Tables(m) && PageMapped(m, r, a)
    ensures Tables(r)
  {
    hide SlotAt, PteAt, FrameAt, DiskAt, SwapPc;
    assert forall e: nat {:trigger SlotAt(m.mem, e)} ::
      SlotAt(m.mem, e) != Occupied(a, m.procs[a].pc.page) || e == m.procs[a].pc.frame;
  }

  lemma MapTruth(m: Machine, r: Machine, a: nat)
    requires Truth(m.procs, m.mem, LeavingFrame(SwapPc(m))) && Tables(m) && PageMapped(m, r, a)
    ensures Truth(r.procs, r.mem, LeavingFrame(SwapPc(r)))
  {
    Views(m.mem, r.mem);
    hide SlotAt, PteAt, FrameAt, DiskAt, FlatAt, SwapPc;
    forall b: nat, h: nat {:trigger FlatAt(r.mem, b, h)} | b in r.procs && Alive(r.procs[b].pc)
      ensures Contents(r.mem, None, b, h) == FlatAt(r.mem, b, h)
    {
      assert Contents(m.mem, None, b, h) == FlatAt(m.mem, b, h);
    }
  }

  lemma MapProcs(m: Machine, r: Machine, a: nat)
    requires Locks(m) && ProcsOk(m) && PageMapped(m, r, a)
    ensures ProcsOk(r)
  {
    SwapperIs(m, a);
    Views(m.mem, r.mem);
    hide Locks, SlotAt, PteAt, FrameAt, DiskAt, FlatAt, BufferAt, SwapPc;
    forall x | x in m.procs
      ensures x in r.tapes && TapeOk(r.mem, x, r.tapes[x], r.procs[x].pc) && PagingOk(r.mem, x, r.procs[x].pc)
    {
      assert TapeOk(m.mem, x, m.tapes[x], m.procs[x].pc) && PagingOk(m.mem, x, m.procs[x].pc);
    }
  }

  /** A dying process gives its frames back and takes no page with it. */
  lemma SweepStep(m: Machine, a: nat)
    requires Inv(m) && a in m.procs && Can(m, a, Sweep)
    ensures Inv(Next(m, a, Sweep))
  {
    StepLocks(m, a, Sweep);
    var r := Next(m, a, Sweep);
    SweptIs(m, r, a);
    SweepTables(m, r, a);
    SweepTruth(m, r, a);
    SweepProcs(m, r, a);
  }

  ghost predicate Away(m: Machine, r: Machine, a: nat) {
    && a in m.procs && m.procs[a].pc == InSwap(Death) && SwapPc(m) == m.procs[a].pc
    && r.procs == m.procs[a := m.procs[a].(pc := Swept)] && SwapPc(r) == Swept && r.tapes == m.tapes
    && r.mem == m.mem.(slots := r.mem.slots, ptes := r.mem.ptes, tlb := r.mem.tlb)
    && (forall e: nat {:trigger SlotAt(r.mem, e)} ::
          SlotAt(r.mem, e) == if SlotAt(m.mem, e).Occupied? &&
            SlotAt(m.mem, e).asid == a then Empty else SlotAt(m.mem, e))
    && (forall b: nat, h: nat {:trigger PteAt(r.mem, b, h)} :: b != a ==> PteAt(r.mem, b, h) == PteAt(m.mem, b, h))
    && (r.mem.tlb == map[] || (r.mem.tlb == m.mem.tlb &&
          forall e: nat {:trigger SlotAt(m.mem, e)} :: SlotAt(m.mem, e).Occupied? ==> SlotAt(m.mem, e).asid != a))
  }

  lemma SweptIs(m: Machine, r: Machine, a: nat)
    requires Locks(m) && a in m.procs && Can(m, a, Sweep) && r == Next(m, a, Sweep)
    ensures Away(m, r, a)
  {
    SwapperIs(m, a);
    AloneView(m, r, a, r.procs[a].pc);
    hide LockOk, SwapPc;
    var y := m.mem;
    var mine := set f | f in y.slots && y.slots[f].Occupied? && y.slots[f].asid == a;
    assert forall e: nat {:trigger SlotAt(y, e)} :: (SlotAt(y, e).Occupied? && SlotAt(y, e).asid == a) ==> e in mine;
  }

  lemma SweepTables(m: Machine, r: Machine, a: nat)
    requires Tables(m) && Away(m, r, a)
    ensures Tables(r)
  {
    hide SlotAt, PteAt, SwapPc;
    forall k | k in r.mem.tlb
      ensures k.0 in r.procs && Alive(r.procs[k.0].pc) && PteAt(r.mem, k.0, k.1) == Valid(r.mem.tlb[k])
    {
      assert SlotAt(m.mem, PteAt(m.mem, k.0, k.1).frame) == Occupied(k.0, k.1);
    }
  }

  lemma SweepTruth(m: Machine, r: Machine, a: nat)
    requires Truth(m.procs, m.mem, LeavingFrame(SwapPc(m))) && Away(m, r, a)
    ensures Truth(r.procs, r.mem, LeavingFrame(SwapPc(r)))
  {
    Views(m.mem, r.mem);
    hide SlotAt, PteAt, FrameAt, DiskAt, FlatAt, SwapPc;
    forall b: nat, h: nat {:trigger FlatAt(r.mem, b, h)} | b in r.procs && Alive(r.procs[b].pc)
      ensures Contents(r.mem, None, b, h) == FlatAt(r.mem, b, h)
    {
      assert Contents(m.mem, None, b, h) == FlatAt(m.mem, b, h);
    }
  }

  lemma SweepProcs(m: Machine, r: Machine, a: nat)
    requires Locks(m) && ProcsOk(m) && Away(m, r, a)
    ensures ProcsOk(r)
  {
    SwapperIs(m, a);
    Views(m.mem, r.mem);
    hide Locks, SlotAt, PteAt, FrameAt, DiskAt, FlatAt, BufferAt, SwapPc;
    forall x | x in m.procs
      ensures x in r.tapes && TapeOk(r.mem, x, r.tapes[x], r.procs[x].pc) && PagingOk(r.mem, x, r.procs[x].pc)
    {
      assert TapeOk(m.mem, x, m.tapes[x], m.procs[x].pc) && PagingOk(m.mem, x, m.procs[x].pc);
    }
  }
}
