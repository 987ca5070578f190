/** What the kernel's proofs need beside its methods: which lists and records the
    heap holds, and facts about single steps of the nucleus. */
module KernelFacts {
  import opened Sequences
  import opened Pcbs
  import Asl
  import opened Nucleus
  import opened Invariant
  import opened Killing
  import opened Trees
  import opened Families
  import Safety

  ghost predicate Separate(free: seq<Pcb>, ready: seq<Pcb>, blocked: set<Pcb>) {
    && (forall i {:trigger free[i]} :: 0 <= i < |free| ==> free[i] !in ready && free[i] !in blocked)
    && (forall i {:trigger ready[i]} :: 0 <= i < |ready| ==> ready[i] !in blocked)
  }

  lemma ChargeAfter(s: State, k: Kern, t: int)
    requires k.cur == s.k.cur
    ensures Charge(s.(k := k), t) == Charge(s, t).(k := k)
  {
  }

  lemma WaitDeviceIs(s: State, i: nat, t1: int, t2: int)
    requires i < |s.k.dev|
    ensures Nucleus.WaitDevice(s, i, t1, t2) ==
      if s.k.dev[i] - 1 >= 0 then s.(k := AddDev(s.k, i, -1))
      else Nucleus.GetNewJob(Charge(s, t1).(k :=
             BlockCur(AddDev(s.k, i, -1),
               DevAddr(AddDev(s.k, i, -1), i)).(softBlock := AddDev(s.k, i, -1).softBlock + 1)), t2)
    ensures AddDev(s.k, i, -1).cur == s.k.cur && AddDev(s.k, i, -1).base == s.k.base
  {
    hide BlockCur, Charge, Nucleus.GetNewJob;
  }

  ghost predicate ProperQueues(k: Kern) {
    AslOk(k) && k.semAdd.Keys == k.pcbs
  }

  lemma QueuesProper(k: Kern)
    requires Core(k)
    ensures ProperQueues(k) && (k.cur != null ==> k.cur in k.pcbs)
  {
    hide NoDup, Invariant.Semaphores, OneTree;
  }

  /** The tick once the first `j` waiters have been woken. */
  ghost function PartTick(k: Kern, j: nat): Kern
    requires j <= |Queue(k, DevAddr(k, CLCKTIMER))|
  {
    var q := Queue(k, DevAddr(k, CLCKTIMER));
    k.(asl := Asl.Requeue(k.asl, DevAddr(k, CLCKTIMER), q[j..]), ready := k.ready + q[..j],
       softBlock := k.softBlock - j,
       semAdd := map p | p in k.semAdd :: if p in q[..j] then NULL else k.semAdd[p])
  }

  lemma PartTickStart(k: Kern)
    requires AslOk(k)
    ensures PartTick(k, 0) == k
  {
    var q := Queue(k, DevAddr(k, CLCKTIMER));
    assert q[0..] == q && q[..0] == [];
    assert k.ready + [] == k.ready;
    hide NoDup;
    assert Asl.Requeue(k.asl, DevAddr(k, CLCKTIMER), q) == k.asl;
    assert PartTick(k, 0).semAdd == k.semAdd;
  }

  lemma PartTickNext(k: Kern, j: nat)
    requires j < |Queue(k, DevAddr(k, CLCKTIMER))|
    requires forall p :: p in Queue(k, DevAddr(k, CLCKTIMER)) ==> p in k.semAdd
    ensures Queue(PartTick(k, j), DevAddr(k, CLCKTIMER)) != []
    ensures var r := Wake(PartTick(k, j), DevAddr(k, CLCKTIMER)); PartTick(k, j + 1) == r.(softBlock := r.softBlock - 1)
  {
    var a := DevAddr(k, CLCKTIMER);
    var q := Queue(k, a);
    var r := Wake(PartTick(k, j), a);
    assert q[j..][0] == q[j] && q[j..][1..] == q[j + 1..] && q[..j + 1] == q[..j] + [q[j]];
    assert PartTick(k, j + 1).asl == r.asl;
    assert PartTick(k, j + 1).ready == r.ready;
    assert q[j] in q;
    assert PartTick(k, j + 1).semAdd == r.semAdd;
  }

  lemma KilledOne(s: State, p: Pcb)
    ensures Killed(s, [p]) == Wiped(s, [p]).(k := Reclaimed(if s.k.cur == p then s.k else Evicted(s.k, p), p))
  {
    hide Wiped, KillOne, Reclaimed, Evicted;
    assert KillAll(s.k, []) == s.k && [p][..0] == [];
    assert KillAll(s.k, [p]) == KillOne(s.k, p);
    KillOneIs(s.k, p);
  }

  lemma KillOneIs(k: Kern, p: Pcb)
    ensures KillOne(k, p) == Reclaimed(if k.cur == p then k else Evicted(k, p), p)
  {
    hide Without, Asl.Requeue;
    if k.cur != p && Tag(k, p) != NULL {
      if IsDev(k, Tag(k, p)) {
        assert Evicted(k, p) == Unhooked(k, p).(softBlock := k.softBlock - 1);
      } else {
        assert Evicted(k, p).softBlock == k.softBlock;
      }
    }
  }

  /** The children of the parent of `c`. */
  ghost function Siblings(tree: Forest, c: Pcb): seq<Pcb>
    reads c`prnt
  {
    if c.prnt == null then [] else Children(tree, c.prnt)
  }

  /** The state before the first process is made. */
  ghost function Blank(table: seq<Pcb>, base: nat, wash: bool, words: map<nat, int>): State {
    var all := Elements(table);
    State(
      Kern(all, base, wash, table, [], null, map[], Nil, map p | p in all :: NULL, seq(MAXSEMA, _ => 0), words, 0, 0),
      map p | p in all :: NO_VECTORS, map p | p in all :: 0,
      INTERVALTIME, 0, false, QUANTUM, Running, 0, 0, 0)
  }

  lemma BlankParts(table: seq<Pcb>, base: nat, wash: bool, words: map<nat, int>)
    ensures var s := Blank(table, base, wash, words);
      && s.k.free == table && s.k.ready == [] && s.k.pcbs == Elements(table)
      && s.k.semAdd.Keys == s.time.Keys == s.vec.Keys == s.k.pcbs
      && (table != [] ==> Wiped(s, [table[0]]) == s)
  {
    var s := Blank(table, base, wash, words);
    if table != [] {
      var w := Wiped(s, [table[0]]);
      assert w.time == s.time && w.vec == s.vec;
    }
  }

  ghost predicate ChangesFamilies(e: Event) {
    e.Create? || e.Terminate? || e.SetTrap? || e.Trapped?
  }

  /** Only creation and death change the process tree. */
  lemma StepTree(s: State, x: Input)
    requires |s.k.dev| == MAXSEMA && !ChangesFamilies(x.e)
    ensures Step(s, x).k.tree == s.k.tree
  {
    hide Nucleus.WaitDevice, Nucleus.Passeren, Nucleus.TimerInterrupt, Nucleus.DeviceInterrupt;
    match x.e
    case V(a) =>
    case P(a) => PasserenTree(s, a, x.t1, x.t2);
    case CpuTime =>
    case Clock => WaitDeviceTree(s, CLCKTIMER, x.t1, x.t2);
    case IO(l, d, read) =>
      if DISKINT <= l && DeviceIndex(l, d, !read) < MAXSEMA {
        WaitDeviceTree(s, DeviceIndex(l, d, !read), x.t1, x.t2);
      }
    case Timer => TimerTree(s, x.t1, x.t2);
    case Device(i) => if i < MAXSEMA { DeviceTree(s, i, x.t1, x.t2); }
    case Store(a, v) =>
  }

  lemma MovesTree(k: Kern, a: nat)
    ensures BlockCur(k, a).tree == k.tree && Tick(k).tree == k.tree && Nucleus.Preempt(k).tree == k.tree
    ensures Queue(k, a) != [] ==> Wake(k, a).tree == k.tree
  {
  }

  lemma ReturnTree(s: State, t: int)
    ensures Nucleus.ReturnFromInterrupt(s, t).k.tree == s.k.tree
  {
    hide Nucleus.GetNewJob;
    DispatchTree(s, t);
  }

  lemma PasserenTree(s: State, a: nat, t1: int, t2: int)
    ensures Nucleus.Passeren(s, a, t1, t2).k.tree == s.k.tree
  {
    hide Nucleus.GetNewJob, BlockCur, Charge;
    MovesTree(AddWord(s.k, a, -1), a);
    DispatchTree(Charge(s, t1).(k := BlockCur(AddWord(s.k, a, -1), a)), t2);
  }

  lemma WaitDeviceTree(s: State, i: nat, t1: int, t2: int)
    requires i < |s.k.dev|
    ensures Nucleus.WaitDevice(s, i, t1, t2).k.tree == s.k.tree
  {
    hide Nucleus.GetNewJob, BlockCur, Charge;
    var k := AddDev(s.k, i, -1);
    MovesTree(k, DevAddr(k, i));
    DispatchTree(Charge(s, t1).(k := BlockCur(k, DevAddr(k, i)).(softBlock := k.softBlock + 1)), t2);
  }

  lemma TimerTree(s: State, t1: int, t2: int)
    requires CLCKTIMER < |s.k.dev|
    ensures Nucleus.TimerInterrupt(s, t1, t2).k.tree == s.k.tree
  {
    hide Nucleus.GetNewJob, Nucleus.ReturnFromInterrupt, Tick, Nucleus.Preempt;
    var c := Charge(s, t1);
    MovesTree(c.k, 0);
    ReturnTree(c.(k := Tick(c.k).(dev := c.k.dev[CLCKTIMER := 0]), timer := QUANTUM,
                  timeLeft := INTERVALTIME, timerFlag := false), t2);
    DispatchTree(c.(k := Nucleus.Preempt(c.k), timer := QUANTUM), t2);
  }

  lemma DeviceTree(s: State, i: nat, t1: int, t2: int)
    requires i < |s.k.dev|
    ensures Nucleus.DeviceInterrupt(s, i, t1, t2).k.tree == s.k.tree
  {
    hide Nucleus.GetNewJob, Nucleus.ReturnFromInterrupt, Wake, Charge;
    DeviceInterruptIs(s, i, t1, t2);
    hide Nucleus.DeviceInterrupt;
    var k := AddDev(s.k, i, 1);
    MovesTree(k, DevAddr(k, i));
    var r := if s.k.dev[i] + 1 <= 0 then SignalDevice(k, i) else k;
    ReturnTree(Charge(s, t1).(k := r), t2);
  }

  lemma DispatchTree(s: State, t: int)
    ensures Nucleus.GetNewJob(s, t).k.tree == s.k.tree
  {
  }

  /** The scheduler does not look at who was running. */
  lemma DispatchForgets(s: State, t: int)
    ensures Nucleus.GetNewJob(s, t) == Nucleus.GetNewJob(s.(k := s.k.(cur := null)), t)
  {
  }

  lemma Survivors(s: State)
    requires Inv(s) && s.k.cur != null
    ensures Nuke(s.k).cur == null && forall p :: p in Nuke(s.k).ready ==> p in s.k.pcbs
  {
    hide Nuke, Nucleus.Family, Removed;
    NukeKeeps(s.k);
    Safety.NukeSameMachine(s.k);
    hide NoDup, Semaphores, OneTree, AslOk, Placed;
  }

  lemma NukeIs(s: State, c: Pcb, family: seq<Pcb>)
    requires s.k.cur == c && family == Post(KidsOf(s.k.tree, c)) + [c]
    ensures Killed(s, family).(k := KillAll(s.k, family).(tree := Prune(s.k.tree, c)))
      == Wiped(s, Nucleus.Family(s.k)).(k := Nuke(s.k).(cur := s.k.cur))
    ensures Killed(s, family).k == KillAll(s.k, family)
  {
    KillAllCur(s.k, family);
  }

  lemma {:induction false} KillAllCur(k: Kern, family: seq<Pcb>)
    ensures KillAll(k, family).cur == k.cur
    decreases |family|
  {
    if family != [] {
      KillAllCur(k, family[..|family| - 1]);
    }
  }

  ghost function Above(p: Pcb, sibs: seq<Pcb>): set<Pcb>
    reads p`prnt
  {
    if sibs == [] || p.prnt == null then {} else {p.prnt}
  }

  ghost predicate Lineage(p: Pcb, running: bool, kids: Forest, sibs: seq<Pcb>)
    reads p`prnt, (if p.prnt == null then {} else {p.prnt})`child
    reads Elements(sibs)`prnt, Elements(sibs)`nextSib, Elements(sibs)`prevSib
  {
    if running && p.prnt != null then
      && IsFamily(p.prnt, sibs) && p in sibs && p.prnt !in sibs
      && p.prnt !in Everyone(kids) && forall x :: x in sibs ==> x !in Everyone(kids)
    else sibs == [] && (running ==> p.prnt == null)
  }

  ghost function Unhooked(k: Kern, p: Pcb): Kern {
    var a := Tag(k, p);
    if a in k.asl then k.(asl := Asl.Requeue(k.asl, a, Without(k.asl[a], {p}))) else k
  }

  /** A block taken off the free list. */
  ghost function Obtained(s: State): State
    requires s.k.free != []
  {
    Wiped(s, [s.k.free[0]]).(k := s.k.(free := s.k.free[1..]))
  }

  lemma WipedOnly(s: State, family: seq<Pcb>)
    ensures var w := Wiped(s, family); w == s.(vec := w.vec, time := w.time)
  {
  }

  lemma UnhookedSame(k: Kern, p: Pcb)
    ensures var r := Unhooked(k, p); r == k.(asl := r.asl)
  {
  }

  ghost function Unblocked(k: Kern, p: Pcb): Kern {
    var r := Unhooked(k, p);
    if IsDev(k, Tag(k, p)) then r.(softBlock := k.softBlock - 1)
    else r.(words := k.words[Tag(k, p) := Word(k, Tag(k, p)) + 1])
  }

  /** A list of live processes, none of them running, in a state fit to kill them. */
  ghost predicate Condemned(s: State, family: seq<Pcb>) {
    && Places(s.k) && Invariant.Semaphores(s.k) && s.time.Keys == s.vec.Keys == s.k.pcbs
    && NoDup(family) && forall p :: p in family ==> Live(s.k, p) && p != s.k.cur
  }

  lemma CondemnedPart(s: State, a: seq<Pcb>, b: seq<Pcb>)
    requires Condemned(s, a + b)
    ensures Condemned(s, a)
  {
    NoDupSplit(a, b);
    hide NoDup, Places, Invariant.Semaphores;
    assert forall x :: x in a ==> x in a + b;
  }

  /** Killing the first part leaves the second fit to be killed. */
  lemma CondemnedRest(s: State, a: seq<Pcb>, b: seq<Pcb>)
    requires Condemned(s, a + b)
    ensures Condemned(Killed(s, a), b) && Killed(s, a).k.pcbs == s.k.pcbs && Killed(s, a).k.cur == s.k.cur
    ensures forall p :: Live(s.k, p) && p !in a ==> Live(Killed(s, a).k, p)
  {
    CondemnedPart(s, a, b);
    NoDupSplit(a, b);
    Trees.Apart(a, b);
    hide NoDup, Places, Invariant.Semaphores, Wiped, Unqueued, Repaid;
    KillAllRemoves(s.k, a);
    Safety.WipedSheets(s, a);
    assert forall x :: x in b ==> x in a + b;
  }

  ghost function Killed(s: State, family: seq<Pcb>): State {
    Wiped(s, family).(k := KillAll(s.k, family))
  }

  lemma KilledNobody(s: State)
    ensures Killed(s, []) == s
  {
    assert Wiped(s, []).time == s.time && Wiped(s, []).vec == s.vec;
  }

  lemma {:induction false} KilledTwice(s: State, a: seq<Pcb>, b: seq<Pcb>)
    ensures Killed(Killed(s, a), b) == Killed(s, a + b)
  {
    KillAllTwice(s.k, a, b);
    assert Killed(Killed(s, a), b).time == Killed(s, a + b).time;
    assert Killed(Killed(s, a), b).vec == Killed(s, a + b).vec;
  }

  lemma {:induction false} KillAllTwice(k: Kern, a: seq<Pcb>, b: seq<Pcb>)
    ensures KillAll(KillAll(k, a), b) == KillAll(k, a + b)
    decreases |b|
  {
    hide KillOne;
    if b == [] {
      assert a + b == a;
    } else {
      var init, p := b[..|b| - 1], b[|b| - 1];
      assert (a + b)[..|a + b| - 1] == a + init;
      KillAllTwice(k, a, init);
    }
  }

  ghost function Evicted(k: Kern, p: Pcb): Kern {
    if Tag(k, p) == NULL then k.(ready := Without(k.ready, {p})) else Unblocked(k, p)
  }

  lemma EvictedFields(k: Kern, p: Pcb)
    ensures var r := Evicted(k, p); r.semAdd == k.semAdd && r.pcbs == k.pcbs && r.free == k.free
  {
    UnhookedSame(k, p);
    hide Unhooked, Without, IsDev, Word;
  }

  ghost function Reclaimed(k: Kern, p: Pcb): Kern {
    k.(free := k.free + [p], procCount := k.procCount - 1,
       semAdd := k.semAdd[p := if k.wash then NULL else Tag(k, p)])
  }

  ghost function SignalDevice(k: Kern, i: nat): Kern {
    if Queue(k, DevAddr(k, i)) == [] then k
    else Wake(k, DevAddr(k, i)).(softBlock := k.softBlock - 1)
  }

  lemma DeviceInterruptIs(s: State, i: nat, t1: int, t2: int)
    requires i < |s.k.dev|
    ensures Charge(s, t1).k == s.k
    ensures Nucleus.DeviceInterrupt(s, i, t1, t2) ==
      Nucleus.ReturnFromInterrupt(Charge(s, t1).(k :=
        if s.k.dev[i] + 1 <= 0 then SignalDevice(AddDev(s.k, i, 1), i) else AddDev(s.k, i, 1)), t2)
    ensures AddDev(s.k, i, 1).cur == s.k.cur && AddDev(s.k, i, 1).base == s.k.base && AddDev(s.k, i, 1).pcbs == s.k.pcbs
  {
    hide Wake, Nucleus.ReturnFromInterrupt;
  }

  lemma TickDevices(k: Kern)
    ensures Tick(k).dev == k.dev
  {
  }

  lemma Clocked(k: Kern)
    requires ProperQueues(k)
    ensures AslOk(k) && forall p :: p in Queue(k, DevAddr(k, CLCKTIMER)) ==> p in k.semAdd
  {
    hide NoDup;
  }

  lemma PartTickQueue(k: Kern, j: nat)
    requires j <= |Queue(k, DevAddr(k, CLCKTIMER))|
    ensures Queue(PartTick(k, j), DevAddr(k, CLCKTIMER)) == Queue(k, DevAddr(k, CLCKTIMER))[j..]
  {
  }

  lemma PartTickEnd(k: Kern)
    ensures PartTick(k, |Queue(k, DevAddr(k, CLCKTIMER))|) == Tick(k)
  {
    var q := Queue(k, DevAddr(k, CLCKTIMER));
    assert q[|q|..] == [] && q[..|q|] == q;
  }

  ghost predicate Devices(a: array<int>, dev: seq<int>)
    reads a
  {
    a[..] == dev
  }

  ghost predicate Records(semAdd: map<Pcb, nat>, time: map<Pcb, int>, vec: map<Pcb, Vectors>)
    reads semAdd.Keys`semAdd, time.Keys`time
    reads vec.Keys`oldTlb, vec.Keys`newTlb, vec.Keys`oldPrgm, vec.Keys`newPrgm, vec.Keys`oldSys, vec.Keys`newSys
  {
    Stamped(semAdd) && Dated(time) && Vectored(vec)
  }

  ghost predicate Stamped(semAdd: map<Pcb, nat>)
    reads semAdd.Keys`semAdd
  {
    forall p {:trigger semAdd[p]} {:trigger p.semAdd} :: p in semAdd ==> p.semAdd == semAdd[p]
  }

  ghost predicate Dated(time: map<Pcb, int>)
    reads time.Keys`time
  {
    forall p {:trigger time[p]} {:trigger p.time} :: p in time ==> p.time == time[p]
  }

  ghost predicate Vectored(vec: map<Pcb, Vectors>)
    reads vec.Keys`oldTlb, vec.Keys`newTlb, vec.Keys`oldPrgm, vec.Keys`newPrgm, vec.Keys`oldSys, vec.Keys`newSys
  {
    forall p {:trigger vec[p]} :: p in vec ==> vec[p] == VectorsOf(p)
  }

  ghost function WithArea(v: Vectors, trap: Trap, o: nat, n: nat): Vectors {
    match trap
    case TlbTrap => v.(oldTlb := o, newTlb := n)
    case ProgTrap => v.(oldPrgm := o, newPrgm := n)
    case SysTrap => v.(oldSys := o, newSys := n)
  }

  ghost function VectorsOf(p: Pcb): Vectors
    reads p`oldTlb, p`newTlb, p`oldPrgm, p`newPrgm, p`oldSys, p`newSys
  {
    Vectors(p.oldTlb, p.newTlb, p.oldPrgm, p.newPrgm, p.oldSys, p.newSys)
  }
}
