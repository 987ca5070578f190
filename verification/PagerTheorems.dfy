/** The pager over whole runs, with the steps of all processes interleaved in
    any order. */
module PagerTheorems {
  import opened Sequences
  import opened Pager
  import opened PagerLocks
  import opened PagerMemory

  lemma StepKeeps(m: Machine, a: nat, s: Step)
    requires Inv(m) && a in m.procs && Can(m, a, s)
    ensures Inv(Next(m, a, s))
  {
    hide Inv, Next;
    match s
    case StartLoad => AskingStep(m, a, s);
    case ReadTape => ReadTapeStep(m, a);
    case EndLoad => LeavingStep(m, a, s);
    case Refill(g) => RefillStep(m, a, g);
    case Store(g, i, v) => StoreStep(m, a, g, i, v);
    case PageFault(_) => AskingStep(m, a, s);
    case Die => AskingStep(m, a, s);
    case TakeDevice(_) => AskingStep(m, a, s);
    case LeaveDevice => LeavingStep(m, a, s);
    case Choose => ChooseStep(m, a);
    case Clear => ClearStep(m, a);
    case AskDisk => AskingStep(m, a, s);
    case SeekDisk => SeekStep(m, a);
    case MoveBlock =>
      match m.procs[a].pc {
        case Load(_, _) => LoadMove(m, a);
        case Evict(_, _, _) => EvictMove(m, a);
        case Fetch(_, _, _) => FetchMove(m, a);
      }
    case LeaveDisk => LeavingStep(m, a, s);
    case Map => MapStep(m, a);
    case Sweep => SweepStep(m, a);
    case LeaveSwap => LeavingStep(m, a, s);
  }

  /** One step of one process. */
  datatype Act = Act(asid: nat, step: Step)

  ghost predicate Run(m: Machine, xs: seq<Act>, t: Machine)
    decreases |xs|
  {
    if xs == [] then t == m
    else xs[0].asid in m.procs && Can(m, xs[0].asid, xs[0].step) && Run(Next(m, xs[0].asid, xs[0].step), xs[1..], t)
  }

  /** What the boot code sets up: nobody has begun to load, no lock is held, no
      frame is used, and each process's memory is what its sectors hold. */
  ghost predicate Initial(m: Machine) {
    && m.sems == map[] && m.mem.slots == map[] && m.mem.ptes == map[] && m.mem.tlb == map[] && m.mem.touched == {}
    && (forall a :: a in m.procs ==>
       1 <= a <= DEVPERINT && m.procs[a] == Proc(Boot, None) && a in m.tapes && m.tapes[a] != [])
    && (forall a: nat, g: nat {:trigger FlatAt(m.mem, a, g)} ::
       a in m.procs ==> FlatAt(m.mem, a, g) == DiskAt(m.mem, g, a - 1))
  }

  lemma InitialInv(m: Machine)
    requires Initial(m)
    ensures Inv(m)
  {
    EmptyNoDup<nat>();
    hide NoDup, FlatAt, DiskAt;
    assert Locks(m) by { assert forall l: nat :: LockOk(m, l); }
    hide Locks;
  }

  lemma {:induction false} RunKeeps(m: Machine, xs: seq<Act>, t: Machine)
    requires Inv(m) && Run(m, xs, t)
    ensures Inv(t)
    decreases |xs|
  {
    hide Inv, Next, Can;
    if xs != [] {
      StepKeeps(m, xs[0].asid, xs[0].step);
      RunKeeps(Next(m, xs[0].asid, xs[0].step), xs[1..], t);
    }
  }

  // ------------------------------------------------------- a process's own stores

  /** `page` after the stores that `xs` has process `a` make to its page `g`. */
  ghost function Replay(page: Page, xs: seq<Act>, a: nat, g: nat): Page
    decreases |xs|
  {
    if xs == [] then page
    else
      var s := xs[0].step;
      Replay(if xs[0].asid == a && s.Store? && s.page == g then page[s.offset := s.word] else page, xs[1..], a, g)
  }

  /** Only a store and a block off a tape change flat memory. */
  lemma FlatKept(m: Machine, x: Act)
    requires x.asid in m.procs && Can(m, x.asid, x.step)
    requires !x.step.Store? && !(x.step.MoveBlock? && m.procs[x.asid].pc.Load?)
    ensures Next(m, x.asid, x.step).mem.flat == m.mem.flat
  {
    if LockStep(x.step) {
      LocksLeaveMem(m, x.asid, x.step);
      hide Next, Can;
    } else {
      StruckFlat(m.mem, x.asid);
      MovedFlat(m.mem, x.asid, m.procs[x.asid].pc);
      hide Acquire, Free, Struck, Moved, Cylinder, WithIo, AfterDisk, TapeOf, SlotAt, PteAt, DiskStage, FrameAt;
      hide DiskAt, FlatAt, BufferAt;
    }
  }

  ghost predicate LockStep(s: Step) {
    s.StartLoad? || s.PageFault? || s.Die? || s.TakeDevice? || s.AskDisk? || s.EndLoad? || s.LeaveDevice? ||
      s.LeaveDisk? || s.LeaveSwap?
  }

  lemma LocksLeaveMem(m: Machine, a: nat, s: Step)
    requires a in m.procs && Can(m, a, s) && LockStep(s)
    ensures Next(m, a, s).mem == m.mem && Next(m, a, s).swapSize == m.swapSize
  {
    AcquireMem(m, a);
    hide Acquire, Free, WithIo, AfterDisk, TapeOf, DiskStage;
  }

  lemma MovedFlat(y: Memory, a: nat, pc: Pc)
    ensures !pc.Load? ==> Moved(y, a, pc).flat == y.flat
  {
  }

  lemma StruckFlat(y: Memory, a: nat)
    ensures Struck(y, a).flat == y.flat
  {
  }

  lemma AcquireMem(m: Machine, a: nat)
    ensures forall l: nat, p, q :: Acquire(m, a, l, p, q).mem == m.mem && Acquire(m, a, l, p, q).swapSize == m.swapSize
    ensures forall l: nat, p :: Free(m, a, l, p).mem == m.mem && Free(m, a, l, p).swapSize == m.swapSize
    ensures a in m.procs ==> forall pc :: Go(m, a, pc).mem == m.mem && Go(m, a, pc).swapSize == m.swapSize
  {
  }

  /** The flat memory of a process past loading changes by its own stores alone. */
  lemma StepFlat(m: Machine, x: Act, a: nat, g: nat)
    requires x.asid in m.procs && Can(m, x.asid, x.step) && a in m.procs && !Loading(m.procs[a].pc)
    ensures FlatAt(Next(m, x.asid, x.step).mem, a, g) ==
      if x.asid == a && x.step.Store? && x.step.page == g then FlatAt(m.mem, a,
        g)[x.step.offset := x.step.word] else FlatAt(m.mem, a, g)
  {
    if !x.step.Store? && !(x.step.MoveBlock? && m.procs[x.asid].pc.Load?) {
      FlatKept(m, x);
      hide Next;
    }
  }

  /** Nobody goes back to loading. */
  lemma StepPastLoading(m: Machine, x: Act, a: nat)
    requires x.asid in m.procs && Can(m, x.asid, x.step) && a in m.procs && !Loading(m.procs[a].pc)
    ensures a in Next(m, x.asid, x.step).procs && !Loading(Next(m, x.asid, x.step).procs[a].pc)
  {
    var b, s := x.asid, x.step;
    var p := m.procs[b];
    if s.StartLoad? || s.PageFault? || s.Die? || s.TakeDevice? || s.AskDisk? {
      hide Free, Go, Moved, Struck, Cylinder;
    } else if s.EndLoad? || s.LeaveDevice? || s.LeaveDisk? || s.LeaveSwap? {
      hide Acquire, Go, Moved, Struck, Cylinder, Granted;
      forall l: nat, q: Proc | !Loading(q.pc) || a != b
        ensures a in Free(m, b, l, q).procs && !Loading(Free(m, b, l, q).procs[a].pc)
      {
        FreePastLoading(m, b, l, q, a);
      }
      hide Free;
    } else {
      hide Acquire, Free, Moved, Struck, Cylinder;
    }
  }

  lemma FreePastLoading(m: Machine, b: nat, l: nat, after: Proc, a: nat)
    requires b in m.procs && a in m.procs && !Loading(m.procs[a].pc) && (!Loading(after.pc) || a != b)
    ensures a in Free(m, b, l, after).procs && !Loading(Free(m, b, l, after).procs[a].pc)
  {
  }

  lemma {:induction false} RunFlat(m: Machine, xs: seq<Act>, t: Machine, a: nat, g: nat)
    requires Run(m, xs, t) && a in m.procs && !Loading(m.procs[a].pc)
    ensures a in t.procs && !Loading(t.procs[a].pc)
    ensures FlatAt(t.mem, a, g) == Replay(FlatAt(m.mem, a, g), xs, a, g)
    decreases |xs|
  {
    hide Next, Can, FlatAt, Loading;
    if xs != [] {
      StepFlat(m, xs[0], a, g);
      StepPastLoading(m, xs[0], a);
      RunFlat(Next(m, xs[0].asid, xs[0].step), xs[1..], t, a, g);
    }
  }

  // ------------------------------------------------------------------- theorems

  /** Where page `g` of process `a` is, this is what is there. */
  ghost function PageOf(m: Machine, a: nat, g: nat): Page {
    Contents(m.mem, LeavingFrame(SwapPc(m)), a, g)
  }

  /** Swapping is invisible: however the steps of all processes interleave, each
      page of a live process holds what it held when the process had loaded,
      changed by exactly that process's own stores. */
  lemma PagingInvisible(m: Machine, xs: seq<Act>, t: Machine, a: nat, g: nat)
    requires Inv(m) && Run(m, xs, t) && a in m.procs && !Loading(m.procs[a].pc) && Alive(m.procs[a].pc)
    requires a in t.procs && Alive(t.procs[a].pc)
    ensures PageOf(t, a, g) == Replay(PageOf(m, a, g), xs, a, g)
  {
    RunKeeps(m, xs, t);
    RunFlat(m, xs, t, a, g);
    TruthAt(m, a, g);
    TruthAt(t, a, g);
  }

  lemma TruthAt(m: Machine, a: nat, g: nat)
    requires Inv(m) && a in m.procs && Alive(m.procs[a].pc)
    ensures PageOf(m, a, g) == FlatAt(m.mem, a, g)
  {
    hide Locks, Tables, ProcsOk, Contents, SwapPc, LeavingFrame;
  }

  // ------------------------------------------------------------ from the start on

  lemma StepPeople(m: Machine, x: Act)
    requires x.asid in m.procs && Can(m, x.asid, x.step)
    ensures Next(m, x.asid, x.step).procs.Keys == m.procs.Keys && Next(m, x.asid, x.step).tapes == m.tapes
  {
    if LockStep(x.step) {
      FreePeople(m, x.asid);
      hide Acquire, Free, Granted, AfterDisk, WithIo, TapeOf, DiskStage;
    } else {
      hide Acquire, Free, Moved, Struck, Cylinder, AfterDisk, SlotAt, PteAt, FrameAt, FlatAt, WithIo, TapeOf, DiskStage;
    }
  }

  lemma FreePeople(m: Machine, a: nat)
    requires a in m.procs
    ensures forall l: nat, p, q ::
      Acquire(m, a, l, p, q).procs.Keys == m.procs.Keys && Acquire(m, a, l, p, q).tapes == m.tapes
    ensures forall l: nat, p :: Free(m, a, l, p).procs.Keys == m.procs.Keys && Free(m, a, l, p).tapes == m.tapes
  {
  }

  /** While a process loads, its memory beyond the tape stays as it was, and it
      has stored nothing. */
  lemma LoadingStep(m: Machine, x: Act, a: nat, g: nat)
    requires Inv(m) && x.asid in m.procs && Can(m, x.asid, x.step) && a in m.procs && a in m.tapes &&
      Loading(m.procs[a].pc)
    ensures g >= |m.tapes[a]| ==> FlatAt(Next(m, x.asid, x.step).mem, a, g) == FlatAt(m.mem, a, g)
    ensures (a, g) !in Next(m, x.asid, x.step).mem.touched
    ensures !(x.asid == a && x.step.Store?)
  {
    assert TapeOk(m.mem, a, m.tapes[a], m.procs[a].pc);
    hide Inv, SlotAt, PteAt, FrameAt, DiskAt, FlatAt, BufferAt, DiskStage, Next;
    TouchedBy(m, x);
    FlatElsewhere(m, x, a, g);
  }

  /** Flat memory away from what is stored or loaded. */
  lemma FlatElsewhere(m: Machine, x: Act, a: nat, g: nat)
    requires x.asid in m.procs && Can(m, x.asid, x.step)
    ensures !(x.asid == a && x.step.Store?) && !(x.asid == a && m.procs[a].pc.Load? && m.procs[a].pc.block == g) ==>
      FlatAt(Next(m, x.asid, x.step).mem, a, g) == FlatAt(m.mem, a, g)
  {
    if !x.step.Store? && !(x.step.MoveBlock? && m.procs[x.asid].pc.Load?) {
      FlatKept(m, x);
      hide Next;
    }
  }

  /** Only a store touches a page. */
  lemma TouchedBy(m: Machine, x: Act)
    requires x.asid in m.procs && Can(m, x.asid, x.step)
    ensures Next(m, x.asid, x.step).mem.touched == m.mem.touched + if x.step.Store? then {(x.asid, x.step.page)} else {}
  {
    if LockStep(x.step) {
      LocksLeaveMem(m, x.asid, x.step);
      hide Next, Can;
    } else {
      StruckTouches(m.mem, x.asid);
      hide Acquire, Free, Struck, Moved, Cylinder, WithIo, AfterDisk, TapeOf, SlotAt, PteAt, DiskStage, FrameAt, FlatAt;
    }
  }

  lemma StruckTouches(y: Memory, a: nat)
    ensures Struck(y, a).touched == y.touched && forall pc :: Moved(y, a, pc).touched == y.touched
  {
    hide SlotAt, FrameAt, DiskAt, BufferAt;
  }

  /** What page `g` of process `a` is to hold when the process has loaded. */
  ghost function Image(m: Machine, a: nat, g: nat): Page {
    if a in m.tapes && g < |m.tapes[a]| then m.tapes[a][g] else FlatAt(m.mem, a, g)
  }

  /** From a moment when the process was still loading: the image off the tape,
      changed by its own stores. */
  lemma {:induction false} LoadedFlat(m: Machine, xs: seq<Act>, t: Machine, a: nat, g: nat)
    requires Inv(m) && Run(m, xs, t) && a in m.procs && Loading(m.procs[a].pc)
    requires a in t.procs && !Loading(t.procs[a].pc)
    ensures FlatAt(t.mem, a, g) == Replay(Image(m, a, g), xs, a, g)
    decreases |xs|
  {
    var n := Next(m, xs[0].asid, xs[0].step);
    assert a in m.tapes;
    LoadingStep(m, xs[0], a, g);
    StepPeople(m, xs[0]);
    StepKeeps(m, xs[0].asid, xs[0].step);
    if Loading(n.procs[a].pc) {
      hide Inv, Next, Can, FlatAt, Loading;
      LoadedFlat(n, xs[1..], t, a, g);
    } else {
      JustLoaded(n, a, g);
      hide Inv, Next, Can, FlatAt, Loading;
      RunFlat(n, xs[1..], t, a, g);
    }
  }

  lemma JustLoaded(m: Machine, a: nat, g: nat)
    requires Inv(m) && a in m.procs && !Loading(m.procs[a].pc) && (a, g) !in m.mem.touched
    ensures a in m.tapes && FlatAt(m.mem, a, g) == Image(m, a, g)
  {
    assert TapeOk(m.mem, a, m.tapes[a], m.procs[a].pc);
    hide Inv, FlatAt;
    assert FlatAt(m.mem, a, g) == FlatAt(m.mem, a, g);
  }

  lemma {:induction false} RunPeople(m: Machine, xs: seq<Act>, t: Machine)
    requires Run(m, xs, t)
    ensures t.procs.Keys == m.procs.Keys
    decreases |xs|
  {
    hide Next, Can;
    if xs != [] {
      StepPeople(m, xs[0]);
      RunPeople(Next(m, xs[0].asid, xs[0].step), xs[1..], t);
    }
  }

  /** From the start on, whatever happens in between: a load that finds its
      translation reads the block off the tape (beyond the tape, what the disk
      held at first), changed by the process's own stores and nothing else. */
  lemma LoadsAreTrue(m: Machine, xs: seq<Act>, t: Machine, a: nat, g: nat)
    requires Initial(m) && Run(m, xs, t) && (a, g) in t.mem.tlb
    ensures a >= 1 && a in m.tapes
    ensures var block := if g < |m.tapes[a]| then m.tapes[a][g] else DiskAt(m.mem, g, a - 1);
      FrameAt(t.mem, t.mem.tlb[(a, g)]) == Replay(block, xs, a, g)
  {
    InitialInv(m);
    RunKeeps(m, xs, t);
    RunPeople(m, xs, t);
    TranslationIs(t, a, g);
    assert m.procs[a].pc == Boot && FlatAt(m.mem, a, g) == DiskAt(m.mem, g, a - 1);
    hide Initial, Inv, FlatAt, DiskAt, FrameAt;
    LoadedFlat(m, xs, t, a, g);
  }

  /** A translation leads to the frame with the page's true contents. */
  lemma TranslationIs(m: Machine, a: nat, g: nat)
    requires Inv(m) && (a, g) in m.mem.tlb
    ensures a in m.procs && !Loading(m.procs[a].pc)
    ensures FrameAt(m.mem, m.mem.tlb[(a, g)]) == FlatAt(m.mem, a, g)
  {
    HitFrame(m, a, g);
    assert a in m.procs && Alive(m.procs[a].pc);
    TruthAt(m, a, g);
    hide Locks, Truth, ProcsOk, SwapPc;
  }

  /** Until a process stores into page `k`, fetching it brings in block `k` of
      its tape: loader and pager agree where blocks are kept. */
  lemma FetchesItsBlock(m: Machine, a: nat, k: nat, f: nat)
    requires Inv(m) && a in m.procs && m.procs[a].pc == Fetched(k, f) && (a, k) !in m.mem.touched
    ensures a in m.tapes && (k < |m.tapes[a]| ==> FrameAt(m.mem, f) == m.tapes[a][k])
  {
    TruthAt(m, a, k);
    SwapperIs(m, a);
    assert TapeOk(m.mem, a, m.tapes[a], m.procs[a].pc) && PagingOk(m.mem, a, m.procs[a].pc);
    assert FlatAt(m.mem, a, k) == FlatAt(m.mem, a, k);
    hide Locks, Tables, Truth, ProcsOk, SwapPc;
  }

  /** Once a process has loaded, each page it has not stored into is its block. */
  lemma LoadedIsTape(m: Machine, a: nat, k: nat)
    requires Inv(m) && a in m.procs && Alive(m.procs[a].pc) && (m.procs[a].pc.Loaded? || !Loading(m.procs[a].pc))
    requires a in m.tapes && k < |m.tapes[a]| && (a, k) !in m.mem.touched
    ensures PageOf(m, a, k) == m.tapes[a][k]
  {
    TruthAt(m, a, k);
    assert TapeOk(m.mem, a, m.tapes[a], m.procs[a].pc);
    assert FlatAt(m.mem, a, k) == FlatAt(m.mem, a, k);
    hide Locks, Tables, Truth, ProcsOk, SwapPc;
  }

  /** While nobody holds `swapSem`, the occupied frames and the valid entries of
      the live processes are in one-to-one correspondence. */
  lemma Residency(m: Machine)
    requires Inv(m) && SemAt(m, SWAPSEM).owner.None?
    ensures forall f: nat, a: nat, g: nat :: SlotAt(m.mem, f) == Occupied(a, g) <==>
      a in m.procs && Alive(m.procs[a].pc) && PteAt(m.mem, a, g) == Valid(f)
    ensures forall f: nat, e: nat :: SlotAt(m.mem, f).Occupied? && SlotAt(m.mem, f) == SlotAt(m.mem, e) ==> f == e
    ensures forall k :: k in m.mem.tlb ==> PteAt(m.mem, k.0, k.1) == Valid(m.mem.tlb[k])
  {
    assert BusyFrame(SwapPc(m)) == None;
    hide Locks, Truth, ProcsOk, SwapPc, SlotAt, PteAt;
  }

  /** Even while a frame is being turned over, no page is in two frames. */
  lemma OneFrameEach(m: Machine, e: nat, f: nat)
    requires Inv(m) && SlotAt(m.mem, f).Occupied? && SlotAt(m.mem, f) == SlotAt(m.mem, e)
    ensures f == e
  {
    hide Locks, Truth, ProcsOk, SwapPc;
  }

  // ------------------------------------------------------------------ the victims

  /** The frames that the steps `xs` choose, in order. */
  ghost function Choices(m: Machine, xs: seq<Act>): seq<nat>
    decreases |xs|
  {
    if xs == [] || xs[0].asid !in m.procs || !Can(m, xs[0].asid, xs[0].step) then []
    else
      var n := Next(m, xs[0].asid, xs[0].step);
      (if xs[0].step.Choose? &&
        n.procs[xs[0].asid].pc.Chosen? then [n.procs[xs[0].asid].pc.frame] else []) + Choices(n, xs[1..])
  }

  ghost function Round(n: nat, size: nat): nat
    requires size > 0
  {
    n % size
  }

  lemma ChoiceStep(m: Machine, x: Act)
    requires x.asid in m.procs && Can(m, x.asid, x.step)
    ensures var n := Next(m, x.asid, x.step);
      && n.swapSize == m.swapSize
      && (!x.step.Choose? ==> n.mem.next == m.mem.next)
      && (x.step.Choose? ==>
            && m.swapSize > 0 && x.asid in n.procs && n.procs[x.asid].pc.Chosen?
            && n.procs[x.asid].pc.frame == n.mem.next == Round(m.mem.next + 1, m.swapSize))
  {
    if LockStep(x.step) {
      LocksLeaveMem(m, x.asid, x.step);
      hide Next, Can;
    } else {
      StruckNext(m.mem, x.asid);
      hide Acquire, Free, Struck, Moved, Cylinder, WithIo, AfterDisk, TapeOf, SlotAt, PteAt, DiskStage, FrameAt, FlatAt;
    }
  }

  lemma StruckNext(y: Memory, a: nat)
    ensures Struck(y, a).next == y.next && forall pc :: Moved(y, a, pc).next == y.next
  {
    hide SlotAt, FrameAt, DiskAt, BufferAt;
  }

  lemma ChoicesStart(m: Machine, xs: seq<Act>, t: Machine)
    requires Run(m, xs, t) && xs != []
    ensures var n := Next(m, xs[0].asid, xs[0].step);
      && n.swapSize == m.swapSize && Run(n, xs[1..], t)
      && if !xs[0].step.Choose? then n.mem.next == m.mem.next && Choices(m, xs) == Choices(n, xs[1..])
         else m.swapSize > 0 && n.mem.next == Round(m.mem.next + 1, m.swapSize)
              && Choices(m, xs) == [n.mem.next] + Choices(n, xs[1..])
  {
    ChoiceStep(m, xs[0]);
    hide Next, Can, Round;
  }

  lemma NoChoices(m: Machine, xs: seq<Act>)
    ensures xs == [] ==> Choices(m, xs) == []
  {
  }

  /** Where the `i`-th choice is found after the first step. */
  lemma ChoiceAfter(m: Machine, xs: seq<Act>, t: Machine, i: nat)
    requires Run(m, xs, t) && xs != [] && i < |Choices(m, xs)|
    ensures xs[0].asid in m.procs && Can(m, xs[0].asid, xs[0].step)
    ensures var n := Next(m, xs[0].asid, xs[0].step);
      && n.swapSize == m.swapSize && Run(n, xs[1..], t)
      && if !xs[0].step.Choose? then
           n.mem.next == m.mem.next && i < |Choices(n, xs[1..])| && Choices(m, xs)[i] == Choices(n, xs[1..])[i]
         else
           && m.swapSize > 0 && n.mem.next == Round(m.mem.next + 1, m.swapSize)
           && if i == 0 then Choices(m, xs)[0] == n.mem.next
              else i - 1 < |Choices(n, xs[1..])| && Choices(m, xs)[i] == Choices(n, xs[1..])[i - 1]
  {
    ChoicesStart(m, xs, t);
    hide Choices, Next, Can, Round;
  }

  /** Each choice takes the frame after the one before, round and round. */
  lemma {:induction false} ChoicesAre(m: Machine, xs: seq<Act>, t: Machine, i: nat)
    requires Run(m, xs, t) && i < |Choices(m, xs)|
    ensures m.swapSize > 0 && Choices(m, xs)[i] == Round(m.mem.next + 1 + i, m.swapSize)
    decreases |xs|
  {
    hide *;
    NoChoices(m, xs);
    ChoiceAfter(m, xs, t, i);
    var n, rest := Next(m, xs[0].asid, xs[0].step), xs[1..];
    if !xs[0].step.Choose? {
      ChoicesAre(n, rest, t, i);
    } else if i > 0 {
      ChoicesAre(n, rest, t, i - 1);
      AddBefore(m.mem.next + 1, i, m.swapSize);
      assert n.mem.next + 1 + (i - 1) == Round(m.mem.next + 1, m.swapSize) + i;
    }
  }

  lemma RoundBelow(n: nat, size: nat)
    requires size > 0
    ensures Round(n, size) < size
  {
  }

  lemma AddBefore(n: nat, i: nat, size: nat)
    requires size > 0
    ensures Round(Round(n, size) + i, size) == Round(n + i, size)
  {
    var q, r := n / size, n % size;
    DivMod(n, size);
    DivMod(r + i, size);
    var p := (r + i) / size;
    Distribute(q, p, size);
    ModIs(n + i, q + p, (r + i) % size, size);
  }

  lemma Distribute(p: nat, q: nat, size: nat)
    ensures (p + q) * size == p * size + q * size
  {
  }

  lemma ModIs(n: nat, q: nat, r: nat, size: nat)
    requires r < size && n == q * size + r
    ensures n % size == r
  {
    DivMod(n, size);
    var p := n / size;
    if p < q {
      Multiples(p, q, size);
    } else if q < p {
      Multiples(q, p, size);
    }
  }

  lemma DivMod(n: nat, size: nat)
    requires size > 0
    ensures n == (n / size) * size + n % size && 0 <= n % size < size
  {
  }

  lemma Multiples(p: nat, q: nat, size: nat)
    requires p < q
    ensures q * size >= p * size + size
  {
    AtLeast(q - p, size);
    Distribute(p, q - p, size);
  }

  lemma AtLeast(d: nat, size: nat)
    requires d >= 1
    ensures d * size >= size
  {
  }

  /** Of `size` numbers in a row, just one leaves the remainder `r`. */
  lemma OneOfEach(n: nat, size: nat, r: nat) returns (i: nat)
    requires r < size
    ensures i < size && Round(n + i, size) == r
  {
    var q, f := n / size, n % size;
    DivMod(n, size);
    if r >= f {
      i := r - f;
      ModIs(n + i, q, r, size);
    } else {
      i := r + size - f;
      Distribute(q, 1, size);
      ModIs(n + i, q + 1, r, size);
    }
  }

  lemma NoneTwice(n: nat, size: nat, d: nat)
    requires 0 < d < size
    ensures Round(n + d, size) != Round(n, size)
  {
    var q, f := n / size, n % size;
    DivMod(n, size);
    if f + d < size {
      ModIs(n + d, q, f + d, size);
    } else {
      Distribute(q, 1, size);
      ModIs(n + d, q + 1, f + d - size, size);
    }
  }

  /** In any run in which `swapSize` frames are chosen, whatever else happens in
      between, every frame is chosen exactly once. */
  lemma EveryFrameOnce(m: Machine, xs: seq<Act>, t: Machine)
    requires Run(m, xs, t) && |Choices(m, xs)| == m.swapSize
    ensures NoDup(Choices(m, xs)) && forall f: nat :: f in Choices(m, xs) <==> f < m.swapSize
  {
    hide Choices, Run, Round;
    var c, n, size := Choices(m, xs), m.mem.next + 1, m.swapSize;
    forall i: nat | i < |c|
      ensures c[i] == Round(n + i, size) && c[i] < size
    {
      ChoicesAre(m, xs, t, i);
      RoundBelow(n + i, size);
    }
    forall i, j | 0 <= i < j < |c|
      ensures c[i] != c[j]
    {
      NoneTwice(n + i, size, j - i);
    }
    forall f: nat | f < size
      ensures f in c
    {
      var i := OneOfEach(n, size, f);
      assert c[i] == f;
    }
  }
}
