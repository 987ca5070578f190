/** First come, first served: who waits for a lock of the pager has it after as many
    releases as there were before it in the queue, and one. */
module PagerTurns {
  import opened Sequences
  import opened Pager
  import opened PagerLocks
  import PagerMemory
  import opened PagerTheorems

  /** The step `x` gives lock `l` back. */
  ghost predicate Releases(m: Machine, x: Act, l: nat)
    requires x.asid in m.procs
  {
    match x.step
    case EndLoad => m.procs[x.asid].device == Some(l)
    case LeaveDevice => m.procs[x.asid].device == Some(l)
    case LeaveDisk => l == BACKINGSTORE
    case LeaveSwap => l == SWAPSEM
    case _ => false
  }

  /** How often a run gives lock `l` back. */
  ghost function ReleasesOver(m: Machine, xs: seq<Act>, l: nat): nat
    decreases |xs|
  {
    if xs == [] || xs[0].asid !in m.procs || !Can(m, xs[0].asid, xs[0].step) then 0
    else (if Releases(m, xs[0], l) then 1 else 0) + ReleasesOver(Next(m, xs[0].asid, xs[0].step), xs[1..], l)
  }

  lemma AskedQueue(m: Machine, a: nat, l: nat, got: Proc, waiting: Proc, k: nat)
    ensures var q, n := SemAt(m, k).queue, Acquire(m, a, l, got, waiting);
      SemAt(n, k).queue == q || SemAt(n, k).queue == q + [a]
  {
  }

  lemma FreedQueue(m: Machine, a: nat, l: nat, after: Proc, k: nat)
    requires LockOk(m, l) && a in m.procs && Holds(m.procs[a], l) && !WaitsFor(a, m.procs[a], l)
    ensures var q, n := SemAt(m, k).queue, Free(m, a, l, after);
      && (k == l && q != [] ==> SemAt(n, k).queue == q[1..] && SemAt(n, k).owner == Some(q[0]))
      && (k != l || q == [] ==> SemAt(n, k).queue == q)
  {
    hide Holds, WaitsFor, Granted, LockOk;
    HeadWaits(m, a, l);
  }

  /** A step takes the head off a queue and makes it the owner, if it gives the lock
      back; otherwise it leaves the queue, or has its process join at the end. */
  ghost predicate Turned(m: Machine, n: Machine, x: Act, l: nat)
    requires x.asid in m.procs
  {
    var q, r := SemAt(m, l), SemAt(n, l);
    if Releases(m, x, l) && q.queue != [] then r.queue == q.queue[1..] && r.owner == Some(q.queue[0])
    else r.queue == q.queue || r.queue == q.queue + [x.asid]
  }

  lemma SemsTurned(m: Machine, x: Act, l: nat)
    requires Locks(m) && x.asid in m.procs && Can(m, x.asid, x.step)
    ensures Turned(m, Next(m, x.asid, x.step), x, l)
  {
    var a, s := x.asid, x.step;
    var p := m.procs[a];
    if s.EndLoad? || s.LeaveDevice? || s.LeaveDisk? || s.LeaveSwap? {
      FreesTurned(m, x, l);
    } else if LockStep(s) {
      hide Locks, WithIo, Acquire, Free, SemAt, DiskStage, PteAt;
      match s
      case StartLoad => AskedQueue(m, a, TapeOf(a), Proc(Tape(0), Some(TapeOf(a))), p.(pc := AwaitTape), l);
      case PageFault(g) => AskedQueue(m, a, SWAPSEM, p.(pc := InSwap(Fault(g))), p.(pc := AwaitSwap(Fault(g))), l);
      case Die => AskedQueue(m, a, SWAPSEM, p.(pc := InSwap(Death)), p.(pc := AwaitSwap(Death)), l);
      case TakeDevice(d) => AskedQueue(m, a, d, Proc(Program, Some(d)), p.(pc := AwaitDevice(d)), l);
      case AskDisk => AskedQueue(m, a, BACKINGSTORE, p.(pc := WithIo(p.pc, Seek)), p.(pc := WithIo(p.pc, Await)), l);
      case _ =>
    } else {
      hide Acquire, Free, Moved, Struck, Cylinder, AfterDisk, PteAt, FrameAt, FlatAt, WithIo, TapeOf, DiskStage, Locks;
      hide SlotAt;
    }
  }

  lemma FreesTurned(m: Machine, x: Act, l: nat)
    requires Locks(m) && x.asid in m.procs && Can(m, x.asid, x.step)
    requires x.step.EndLoad? || x.step.LeaveDevice? || x.step.LeaveDisk? || x.step.LeaveSwap?
    ensures Turned(m, Next(m, x.asid, x.step), x, l)
  {
    var a, s := x.asid, x.step;
    var p := m.procs[a];
    PagerMemory.Held(m, a, s) by { hide LockOk, Holds, WaitsFor; }
    assert forall k: nat :: LockOk(m, k);
    hide Locks, LockOk, WithIo, Acquire, Free, SemAt, DiskStage, Holds, WaitsFor, AfterDisk;
    match s
    case EndLoad => FreedQueue(m, a, p.device.value, Proc(Program, None), l);
    case LeaveDevice => FreedQueue(m, a, p.device.value, Proc(Program, None), l);
    case LeaveDisk => FreedQueue(m, a, BACKINGSTORE, p.(pc := AfterDisk(m, a, p.pc)), l);
    case LeaveSwap => FreedQueue(m, a, SWAPSEM, p.(pc := if p.pc.Mapped? then Program else Dead), l);
    case _ =>
  }

  /** What a step makes of a queue: its head leaves, as the owner, when the lock is given
      back, and whoever comes to wait joins at the end. */
  lemma QueueStep(m: Machine, x: Act, l: nat)
    requires Locks(m) && x.asid in m.procs && Can(m, x.asid, x.step)
    ensures var q, n := SemAt(m, l).queue, Next(m, x.asid, x.step);
      && x.asid in n.procs
      && SemAt(n, l).queue ==
        (if Releases(m, x, l) && q != [] then q[1..]
         else if WaitsFor(x.asid, n.procs[x.asid], l) && x.asid !in q then q + [x.asid] else q)
      && (Releases(m, x, l) && q != [] ==> q[0] in n.procs && Holds(n.procs[q[0]], l))
  {
    StepLocks(m, x.asid, x.step);
    SemsTurned(m, x, l);
    StepPeople(m, x);
    hide Next, Can, Holds, WaitsFor, WellFormed, SemAt;
    var q, r := SemAt(m, l).queue, SemAt(Next(m, x.asid, x.step), l).queue;
    assert LockOk(Next(m, x.asid, x.step), l);
    if r == q + [x.asid] {
      NoDupSplit(q, [x.asid]);
      assert x.asid in r && x.asid in [x.asid];
    }
    hide LockOk, NoDup;
  }

  /** Over every run: a process with `i` others before it in the queue of a lock stays in
      the queue through `i` releases of the lock, gaining a place with each, and holds the
      lock after one more. */
  lemma {:induction false} Turn(m: Machine, xs: seq<Act>, t: Machine, l: nat, a: nat, i: nat)
    returns (j: nat, u: Machine)
    requires Locks(m) && Run(m, xs, t) && i < |SemAt(m, l).queue| && SemAt(m, l).queue[i] == a
    ensures j <= |xs| && Run(m, xs[..j], u)
    ensures ReleasesOver(m, xs, l) <= i ==>
      var k := i - ReleasesOver(m, xs, l); j == |xs| && u == t && k < |SemAt(t, l).queue| && SemAt(t, l).queue[k] == a
    ensures ReleasesOver(m, xs, l) > i ==>
      ReleasesOver(m, xs[..j], l) == i + 1 && a in u.procs && Holds(u.procs[a], l)
    decreases |xs|
  {
    hide Locks, Next, Can, Holds, WaitsFor, SemAt, Releases;
    if xs == [] {
      return 0, m;
    }
    var n, x := Next(m, xs[0].asid, xs[0].step), xs[0];
    QueueStep(m, x, l);
    StepLocks(m, x.asid, x.step);
    if Releases(m, x, l) && i == 0 {
      assert xs[..1][0] == x && xs[..1][1..] == [] && ReleasesOver(n, [], l) == 0;
      return 1, n;
    }
    var k;
    k, u := Turn(n, xs[1..], t, l, a, if Releases(m, x, l) then i - 1 else i);
    j := k + 1;
    assert xs[..j][0] == x && xs[..j][1..] == xs[1..][..k];
    assert k == |xs[1..]| ==> xs[..j] == xs;
  }
}
