/** Mutual exclusion and the order of the pager's locks. */
module PagerLocks {
  import opened Sequences
  import opened Pager

  /** The shape of a process: a device mutex is one of the devices', and nothing
      is asked for in the wrong order. */
  ghost predicate WellFormed(p: Proc) {
    && (p.device.Some? ==> BACKINGSTORE < p.device.value < SWAPSEM)
    && (p.pc.AwaitDevice? ==> p.device.None? && BACKINGSTORE < p.pc.device < SWAPSEM)
    && (p.pc.AwaitTape? || p.pc.Boot? ==> p.device.None?)
  }

  /** Lock `l` is a proper semaphore: one owner at most, the others in its queue. */
  ghost predicate LockOk(m: Machine, l: nat) {
    var s := SemAt(m, l);
    && s.value == 1 - |s.queue| - (if s.owner.Some? then 1 else 0)
    && (s.queue != [] ==> s.owner.Some?)
    && NoDup(s.queue)
    && (s.owner.Some? ==> s.owner.value in m.procs)
    && (forall a :: a in m.procs ==> (Holds(m.procs[a], l) <==> s.owner == Some(a)))
    && (forall a :: a in s.queue ==> a in m.procs)
    && (forall a :: a in m.procs ==> (WaitsFor(a, m.procs[a], l) <==> a in s.queue))
  }

  ghost predicate Locks(m: Machine) {
    && (forall a :: a in m.procs ==> 1 <= a <= DEVPERINT && WellFormed(m.procs[a]))
    && (forall l: nat :: LockOk(m, l))
  }

  // ---------------------------------------------- what a step does to one process

  /** At lock `l` nothing changes for process `a`. */
  ghost predicate Same(a: nat, p: Proc, q: Proc, l: nat) {
    (Holds(p, l) <==> Holds(q, l)) && (WaitsFor(a, p, l) <==> WaitsFor(a, q, l))
  }

  ghost predicate Gains(a: nat, p: Proc, q: Proc, l: nat) {
    && !Holds(p, l) && !WaitsFor(a, p, l) && Holds(q, l) && !WaitsFor(a, q, l)
    && forall k: nat :: k != l ==> Same(a, p, q, k)
  }

  ghost predicate Queues(a: nat, p: Proc, q: Proc, l: nat) {
    && !Holds(p, l) && !WaitsFor(a, p, l) && !Holds(q, l) && WaitsFor(a, q, l)
    && forall k: nat :: k != l ==> Same(a, p, q, k)
  }

  ghost predicate Loses(a: nat, p: Proc, q: Proc, l: nat) {
    && Holds(p, l) && !WaitsFor(a, p, l) && !Holds(q, l) && !WaitsFor(a, q, l)
    && forall k: nat :: k != l ==> Same(a, p, q, k)
  }

  lemma OtherLock(m: Machine, r: Machine, a: nat, q: Proc, k: nat)
    requires LockOk(m, k) && a in m.procs && r.procs == m.procs[a := q] && SemAt(r, k) == SemAt(m, k)
    requires Same(a, m.procs[a], q, k)
    ensures LockOk(r, k)
  {
    hide Holds, WaitsFor, NoDup;
  }

  lemma AcquireLocks(m: Machine, a: nat, l: nat, got: Proc, waiting: Proc)
    requires Locks(m) && a in m.procs && WellFormed(got) && WellFormed(waiting)
    requires Gains(a, m.procs[a], got, l) && Queues(a, m.procs[a], waiting, l)
    ensures Locks(Acquire(m, a, l, got, waiting))
  {
    hide WellFormed, LockOk, Holds, WaitsFor;
    var r := Acquire(m, a, l, got, waiting);
    forall k: nat
      ensures LockOk(r, k)
    {
      assert LockOk(m, k);
      if k == l {
        AcquireLock(m, a, l, got, waiting);
      } else {
        assert Same(a, m.procs[a], r.procs[a], k);
        OtherLock(m, r, a, r.procs[a], k);
      }
    }
  }

  lemma AcquireLock(m: Machine, a: nat, l: nat, got: Proc, waiting: Proc)
    requires LockOk(m, l) && a in m.procs
    requires Gains(a, m.procs[a], got, l) && Queues(a, m.procs[a], waiting, l)
    ensures LockOk(Acquire(m, a, l, got, waiting), l)
  {
    hide Holds, WaitsFor, NoDup, Same;
    AppendNoDup(SemAt(m, l).queue, a);
  }

  /** The lock a process waits for is what it gains when its turn comes. */
  lemma GrantedGains(a: nat, p: Proc, l: nat)
    requires WellFormed(p) && WaitsFor(a, p, l) && 1 <= a <= DEVPERINT
    ensures var q := Granted(a, p);
      && WellFormed(q) && !Holds(p, l) && Holds(q, l) && !WaitsFor(a, q, l)
      && forall k: nat :: k != l ==> Same(a, p, q, k)
  {
    var q := Granted(a, p);
    forall k: nat | k != l
      ensures Same(a, p, q, k)
    {
    }
  }

  lemma FreeLocks(m: Machine, a: nat, l: nat, after: Proc)
    requires Locks(m) && a in m.procs && WellFormed(after) && Loses(a, m.procs[a], after, l)
    ensures Locks(Free(m, a, l, after))
  {
    hide WellFormed, LockOk, Holds, WaitsFor, Granted;
    var s, r := SemAt(m, l), Free(m, a, l, after);
    assert LockOk(m, l);
    HeadWaits(m, a, l);
    forall k: nat
      ensures LockOk(r, k)
    {
      assert LockOk(m, k);
      if k == l {
        FreeLock(m, a, l, after);
      } else {
        var n := m.(procs := m.procs[a := after]);
        assert SemAt(n, k) == SemAt(m, k) == SemAt(r, k);
        assert Same(a, m.procs[a], after, k);
        if s.queue == [] {
          OtherLock(m, r, a, after, k);
        } else {
          var b := s.queue[0];
          GrantedGains(b, m.procs[b], l);
          assert Same(b, m.procs[b], Granted(b, m.procs[b]), k);
          OtherLock(m, n, a, after, k);
          OtherLock(n, r, b, r.procs[b], k);
        }
      }
    }
    if s.queue != [] {
      GrantedGains(s.queue[0], m.procs[s.queue[0]], l);
    }
  }

  /** The head of the queue is another process, which waits for the lock. */
  lemma HeadWaits(m: Machine, a: nat, l: nat)
    requires LockOk(m, l) && a in m.procs && Holds(m.procs[a], l) && !WaitsFor(a, m.procs[a], l)
    ensures SemAt(m, l).owner == Some(a)
    ensures SemAt(m, l).queue == [] ==> SemAt(m, l).value + 1 == 1
    ensures SemAt(m, l).queue != [] ==> SemAt(m, l).value + 1 <= 0
    ensures var q := SemAt(m, l).queue; q != [] ==> q[0] in m.procs && q[0] != a && WaitsFor(q[0], m.procs[q[0]], l)
  {
    hide Holds, WaitsFor, NoDup;
    var s := SemAt(m, l);
    assert s.queue != [] ==> s.queue[0] in s.queue;
  }

  lemma FreeLock(m: Machine, a: nat, l: nat, after: Proc)
    requires LockOk(m, l) && a in m.procs && Loses(a, m.procs[a], after, l)
    requires forall b :: b in m.procs ==> 1 <= b <= DEVPERINT && WellFormed(m.procs[b])
    ensures LockOk(Free(m, a, l, after), l)
  {
    hide Holds, WaitsFor, Granted, WellFormed, Same;
    HeadWaits(m, a, l);
    var s := SemAt(m, l);
    if s.queue != [] {
      GrantedGains(s.queue[0], m.procs[s.queue[0]], l);
      TailNoDup(s.queue);
    }
    hide NoDup;
  }

  // ------------------------------------------------------------------ every step

  /** A step that neither takes nor leaves a lock. */
  lemma QuietLocks(m: Machine, r: Machine, a: nat, q: Proc)
    requires Locks(m) && a in m.procs && WellFormed(q) && r.procs == m.procs[a := q] && r.sems == m.sems
    requires forall k: nat :: Same(a, m.procs[a], q, k)
    ensures Locks(r)
  {
    hide WellFormed, LockOk, Holds, WaitsFor;
    forall k: nat
      ensures LockOk(r, k)
    {
      assert LockOk(m, k) && SemAt(r, k) == SemAt(m, k);
      OtherLock(m, r, a, q, k);
    }
  }

  /** Every step of every process keeps the locks proper. */
  lemma StepLocks(m: Machine, a: nat, s: Step)
    requires Locks(m) && a in m.procs && Can(m, a, s)
    ensures Locks(Next(m, a, s))
  {
    if s.StartLoad? || s.PageFault? || s.Die? || s.TakeDevice? || s.AskDisk? {
      AskingLocks(m, a, s);
    } else if s.EndLoad? || s.LeaveDevice? || s.LeaveDisk? || s.LeaveSwap? {
      LeavingLocks(m, a, s);
    } else {
      var r := Next(m, a, s);
      hide LockOk;
      assert m.procs == m.procs[a := m.procs[a]];
      QuietPc(m, a, s);
      hide Next, Can, Holds, WaitsFor;
      QuietLocks(m, r, a, r.procs[a]);
    }
  }

  lemma QuietPc(m: Machine, a: nat, s: Step)
    requires a in m.procs && Can(m, a, s) && WellFormed(m.procs[a])
    requires !s.StartLoad? && !s.PageFault? && !s.Die? && !s.TakeDevice? && !s.AskDisk?
    requires !s.EndLoad? && !s.LeaveDevice? && !s.LeaveDisk? && !s.LeaveSwap?
    ensures var r := Next(m, a, s); a in r.procs && r.sems == m.sems && r.procs == m.procs[a := r.procs[a]]
    ensures WellFormed(Next(m, a, s).procs[a])
    ensures forall k: nat :: Same(a, m.procs[a], Next(m, a, s).procs[a], k)
  {
    hide Moved, Struck, Cylinder, Holds, WaitsFor, Acquire, Free, AfterDisk, TapeOf, SlotAt, PteAt, FrameAt, DiskAt;
    hide FlatAt, BufferAt, Granted, Same;
    var p, q := m.procs[a], Next(m, a, s).procs[a];
    assert m.procs == m.procs[a := p];
    QuietSame(a, p, q);
  }

  ghost predicate Waits(pc: Pc) { pc.AwaitTape? || pc.AwaitDevice? || pc.AwaitSwap? || DiskStage(pc) == Some(Await) }

  lemma QuietSame(a: nat, p: Proc, q: Proc)
    requires p.device == q.device && !Waits(p.pc) && !Waits(q.pc)
    requires (HoldsSwap(p.pc) <==> HoldsSwap(q.pc)) && (HoldsDisk(p.pc) <==> HoldsDisk(q.pc))
    ensures forall k: nat :: Same(a, p, q, k)
  {
  }

  /** What asking for a lock changes for the process that asks. */
  lemma AsksFor(a: nat, p: Proc, s: Step)
    requires WellFormed(p) && 1 <= a <= DEVPERINT
    ensures s.StartLoad? && p.pc.Boot? ==> Asks(a, p, TapeOf(a), Proc(Tape(0), Some(TapeOf(a))), p.(pc := AwaitTape))
    ensures s.PageFault? && p.pc.Program? ==>
      Asks(a, p, SWAPSEM, p.(pc := InSwap(Fault(s.page))), p.(pc := AwaitSwap(Fault(s.page))))
    ensures s.Die? && p.pc.Program? ==> Asks(a, p, SWAPSEM, p.(pc := InSwap(Death)), p.(pc := AwaitSwap(Death)))
    ensures s.TakeDevice? && p.pc.Program? && p.device.None? && BACKINGSTORE < s.device < SWAPSEM ==>
      Asks(a, p, s.device, Proc(Program, Some(s.device)), p.(pc := AwaitDevice(s.device)))
    ensures s.AskDisk? && DiskStage(p.pc) == Some(Want) ==>
      Asks(a, p, BACKINGSTORE, p.(pc := WithIo(p.pc, Seek)), p.(pc := WithIo(p.pc, Await)))
  {
  }

  ghost predicate Asks(a: nat, p: Proc, l: nat, got: Proc, waiting: Proc) {
    WellFormed(got) && WellFormed(waiting) && Gains(a, p, got, l) && Queues(a, p, waiting, l)
  }

  lemma AskingLocks(m: Machine, a: nat, s: Step)
    requires Locks(m) && a in m.procs && Can(m, a, s)
    requires s.StartLoad? || s.PageFault? || s.Die? || s.TakeDevice? || s.AskDisk?
    ensures Locks(Next(m, a, s))
  {
    var p := m.procs[a];
    assert WellFormed(p) && 1 <= a <= DEVPERINT;
    hide LockOk, Acquire, Free, Go, Struck, Moved, Cylinder, AfterDisk, NoDup, WellFormed, Holds, WaitsFor, Same;
    hide Gains, Queues, WithIo;
    AsksFor(a, p, s);
    match s
    case StartLoad => AcquireLocks(m, a, TapeOf(a), Proc(Tape(0), Some(TapeOf(a))), p.(pc := AwaitTape));
    case PageFault(g) => AcquireLocks(m, a, SWAPSEM, p.(pc := InSwap(Fault(g))), p.(pc := AwaitSwap(Fault(g))));
    case Die => AcquireLocks(m, a, SWAPSEM, p.(pc := InSwap(Death)), p.(pc := AwaitSwap(Death)));
    case TakeDevice(d) => AcquireLocks(m, a, d, Proc(Program, Some(d)), p.(pc := AwaitDevice(d)));
    case AskDisk => AcquireLocks(m, a, BACKINGSTORE, p.(pc := WithIo(p.pc, Seek)), p.(pc := WithIo(p.pc, Await)));
    case _ =>
  }

  lemma LeavingLocks(m: Machine, a: nat, s: Step)
    requires Locks(m) && a in m.procs && Can(m, a, s)
    requires s.EndLoad? || s.LeaveDevice? || s.LeaveDisk? || s.LeaveSwap?
    ensures Locks(Next(m, a, s))
  {
    hide LockOk, Free;
    var p := m.procs[a];
    match s
    case EndLoad => FreeLocks(m, a, p.device.value, Proc(Program, None));
    case LeaveDevice => FreeLocks(m, a, p.device.value, Proc(Program, None));
    case LeaveDisk => FreeLocks(m, a, BACKINGSTORE, p.(pc := AfterDisk(m, a, p.pc)));
    case LeaveSwap => FreeLocks(m, a, SWAPSEM, p.(pc := if p.pc.Mapped? then Program else Dead));
    case _ =>
  }

  // ------------------------------------------------------------------- theorems

  /** No lock ever has two holders. */
  lemma MutualExclusion(m: Machine, l: nat, a: nat, b: nat)
    requires Locks(m) && a in m.procs && b in m.procs && Holds(m.procs[a], l) && Holds(m.procs[b], l)
    ensures a == b
  {
    hide Holds, WaitsFor, NoDup;
    assert LockOk(m, l);
  }

  /** Device mutexes come before `swapSem`, and that before the backing store. */
  ghost function Level(l: nat): nat { if l == BACKINGSTORE then 2 else if l == SWAPSEM then 1 else 0 }

  lemma InOrder(a: nat, p: Proc, l: nat, h: nat)
    requires 1 <= a <= DEVPERINT && WellFormed(p) && WaitsFor(a, p, l) && Holds(p, h)
    ensures Level(h) < Level(l)
  {
  }

  /** `a` waits for lock `l`, which `b` holds. */
  ghost predicate WaitsOn(m: Machine, a: nat, l: nat, b: nat) {
    a in m.procs && b in m.procs && WaitsFor(a, m.procs[a], l) && Holds(m.procs[b], l)
  }

  /** Each process of `ps` waits for the next, by the lock of the same index. */
  ghost predicate WaitChain(m: Machine, ps: seq<nat>, ls: seq<nat>) {
    && |ps| == |ls| + 1
    && forall i :: 0 <= i < |ls| ==> WaitsOn(m, ps[i], ls[i], ps[i + 1])
  }

  lemma {:induction false} ChainClimbs(m: Machine, ps: seq<nat>, ls: seq<nat>, i: nat, j: nat)
    requires Locks(m) && WaitChain(m, ps, ls) && i < j < |ls|
    ensures Level(ls[i]) < Level(ls[j])
    decreases j
  {
    hide Holds, WaitsFor, LockOk, WellFormed;
    assert WaitsOn(m, ps[j - 1], ls[j - 1], ps[j]) && WaitsOn(m, ps[j], ls[j], ps[j + 1]);
    InOrder(ps[j], m.procs[ps[j]], ls[j], ls[j - 1]);
    if i < j - 1 {
      ChainClimbs(m, ps, ls, i, j - 1);
    }
  }

  lemma WaitsOnce(m: Machine, a: nat, k: nat, l: nat)
    requires Locks(m) && a in m.procs && WaitsFor(a, m.procs[a], k) && WaitsFor(a, m.procs[a], l)
    ensures k == l
  {
  }

  /** The wait-for relation has no cycle, and no chain of more than four. */
  lemma NoDeadlock(m: Machine, ps: seq<nat>, ls: seq<nat>)
    requires Locks(m) && WaitChain(m, ps, ls)
    ensures NoDup(ps) && |ps| <= 4
  {
    hide Holds, WaitsFor, LockOk, WellFormed;
    forall i, j | 0 <= i < j < |ps|
      ensures ps[i] != ps[j]
    {
      if ps[i] == ps[j] {
        assert WaitsOn(m, ps[i], ls[i], ps[i + 1]);
        if j < |ls| {
          assert WaitsOn(m, ps[j], ls[j], ps[j + 1]);
          WaitsOnce(m, ps[i], ls[i], ls[j]);
          ChainClimbs(m, ps, ls, i, j);
        } else {
          assert WaitsOn(m, ps[j - 1], ls[j - 1], ps[j]);
          InOrder(ps[i], m.procs[ps[i]], ls[i], ls[j - 1]);
          if i < j - 1 {
            ChainClimbs(m, ps, ls, i, j - 1);
          }
        }
        assert false;
      }
    }
    if |ps| > 4 {
      ChainClimbs(m, ps, ls, 0, 1);
      ChainClimbs(m, ps, ls, 1, 2);
      ChainClimbs(m, ps, ls, 2, 3);
    }
  }
}
