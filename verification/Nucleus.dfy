/** The nucleus as a state machine: what each system call, trap and interrupt
    does to the state, up to the point where it loads a processor state (or
    halts, panics or waits) and so never returns. */
module Nucleus {
  import opened Sequences
  import opened Pcbs
  import opened Asl

  const QUANTUM: int := 5000
  const INTERVALTIME: int := 100000
  const WORDLEN: nat := 4
  const MAXSEMA: nat := 49      // device semaphores and, last, the pseudo-clock
  const CLCKTIMER: nat := 48
  const DEVPERINT: nat := 8
  const DISKINT: nat := 3
  const TERMINT: nat := 7

  datatype Trap = TlbTrap | ProgTrap | SysTrap

  /** Addresses of a process's old and new trap areas; NULL where none is set. */
  datatype Vectors = Vectors(oldTlb: nat, newTlb: nat, oldPrgm: nat, newPrgm: nat, oldSys: nat, newSys: nat)

  const NO_VECTORS := Vectors(NULL, NULL, NULL, NULL, NULL, NULL)

  /** A list of siblings, newest first, each with its own children. */
  datatype Forest = Nil | Node(p: Pcb, kids: Forest, older: Forest)

  /** How the last step ended. `Lost` stands for a kernel that ran off the end
      of a handler or followed a null pointer. */
  datatype Mode = Running | Waiting | Halted | Panicked | Lost

  /** Where the processes are and what the semaphores and counters say. */
  datatype Kern = Kern(
    pcbs: set<Pcb>,              // the process table
    base: nat,                   // the address of the device semaphores
    wash: bool,                  // whether freeing a block clears its semaphore address
    free: seq<Pcb>,
    ready: seq<Pcb>,
    cur: Pcb?,
    asl: map<nat, seq<Pcb>>,
    tree: Forest,
    semAdd: map<Pcb, nat>,
    dev: seq<int>,
    words: map<nat, int>,        // memory words in use as ordinary semaphores
    procCount: int,
    softBlock: int)

  datatype State = State(
    k: Kern,
    vec: map<Pcb, Vectors>,
    time: map<Pcb, int>,
    timeLeft: int,
    startTOD: int,
    timerFlag: bool,
    timer: int,                  // what the interval timer was last set to
    mode: Mode,
    clock: int,                  // history: the last time of day read
    charged: int,                // history: all time ever charged to processes
    dispatches: nat)             // history: how many jobs the scheduler has started

  // ------------------------------------------------------------- addresses

  ghost function DevAddr(k: Kern, i: nat): nat { k.base + WORDLEN * i }

  ghost predicate IsDev(k: Kern, a: nat) { k.base <= a <= DevAddr(k, CLCKTIMER) }

  ghost predicate Ordinary(k: Kern, a: nat) { a != NULL && !IsDev(k, a) }

  ghost function Word(k: Kern, a: nat): int { if a in k.words then k.words[a] else 0 }

  ghost function Queue(k: Kern, a: nat): seq<Pcb> { Asl.Waiting(k.asl, a) }

  ghost function Tag(k: Kern, p: Pcb): nat { if p in k.semAdd then k.semAdd[p] else NULL }

  /** The semaphore of a device: terminals have one to read and one to write. */
  function DeviceIndex(line: nat, device: nat, write: bool): nat
    requires DISKINT <= line
  {
    DEVPERINT * (line - DISKINT) + device + if line == TERMINT && write then DEVPERINT else 0
  }

  // ---------------------------------------------------------- process tree

  /** The members, each after its children; newest sibling first. */
  ghost function Post(f: Forest): seq<Pcb> {
    if f.Nil? then [] else Post(f.kids) + [f.p] + Post(f.older)
  }

  ghost function Names(f: Forest): (r: seq<Pcb>)
    ensures forall x :: x in r ==> x in Post(f)
  {
    if f.Nil? then [] else [f.p] + Names(f.older)
  }

  ghost function KidsOf(f: Forest, c: Pcb): Forest {
    if f.Nil? then Nil
    else if f.p == c then f.kids
    else if c in Post(f.kids) then KidsOf(f.kids, c)
    else KidsOf(f.older, c)
  }

  ghost function Adopt(f: Forest, parent: Pcb, p: Pcb): Forest {
    if f.Nil? then Nil
    else if f.p == parent then Node(f.p, Node(p, Nil, f.kids), f.older)
    else Node(f.p, Adopt(f.kids, parent, p), Adopt(f.older, parent, p))
  }

  ghost function Prune(f: Forest, c: Pcb): Forest {
    if f.Nil? then Nil
    else if f.p == c then f.older
    else Node(f.p, Prune(f.kids, c), Prune(f.older, c))
  }

  // ---------------------------------------- changes of place and of counters

  /** Blocks the current process on `a`. Out of descriptors, it is just dropped. */
  ghost function BlockCur(k: Kern, a: nat): Kern {
    if k.cur == null || (a !in k.asl && |k.asl| == |k.pcbs|) then k.(cur := null)
    else k.(asl := k.asl[a := Queue(k, a) + [k.cur]], semAdd := k.semAdd[k.cur := a], cur := null)
  }

  /** Makes the process that has waited longest on `a` ready. */
  ghost function Wake(k: Kern, a: nat): Kern
    requires Queue(k, a) != []
  {
    var p := Queue(k, a)[0];
    k.(asl := Requeue(k.asl, a, Queue(k, a)[1..]), semAdd := k.semAdd[p := NULL], ready := k.ready + [p])
  }

  /** Everyone waiting for the clock becomes ready, in the order they came. */
  ghost function Tick(k: Kern): Kern {
    var q := Queue(k, DevAddr(k, CLCKTIMER));
    k.(asl := k.asl - {DevAddr(k, CLCKTIMER)}, ready := k.ready + q, softBlock := k.softBlock - |q|,
       semAdd := map p | p in k.semAdd :: if p in q then NULL else k.semAdd[p])
  }

  ghost function Spawn(k: Kern, parent: Pcb): Kern
    requires k.free != []
  {
    var p := k.free[0];
    k.(free := k.free[1..], procCount := k.procCount + 1,
       tree := Adopt(k.tree, parent, p), ready := k.ready + [p])
  }

  /** One process of a dying family: out of its queue and back on the free list. */
  ghost function KillOne(k: Kern, p: Pcb): Kern {
    var a := Tag(k, p);
    var out :=
      if k.cur == p then k
      else if a == NULL then k.(ready := Without(k.ready, {p}))
      else
        var rest := if a in k.asl then k.(asl := Requeue(k.asl, a, Without(k.asl[a], {p}))) else k;
        if IsDev(k, a) then rest.(softBlock := k.softBlock - 1)
        else rest.(words := k.words[a := Word(k, a) + 1]);
    out.(free := k.free + [p], procCount := k.procCount - 1,
         semAdd := k.semAdd[p := if k.wash then NULL else a])
  }

  ghost function KillAll(k: Kern, family: seq<Pcb>): Kern
    decreases |family|
  {
    if family == [] then k
    else KillOne(KillAll(k, family[..|family| - 1]), family[|family| - 1])
  }

  /** The current process and all below it, in the order they are freed. */
  ghost function Family(k: Kern): seq<Pcb> {
    if k.cur == null then [] else Post(KidsOf(k.tree, k.cur)) + [k.cur]
  }

  ghost function Nuke(k: Kern): Kern {
    if k.cur == null then k else
    KillAll(k, Family(k)).(tree := Prune(k.tree, k.cur), cur := null)
  }

  // ------------------------------------------------- scheduling and charging

  ghost function ProcessJob(s: State, job: Pcb, t: int): State {
    var left := if s.timeLeft < 0 then 0 else s.timeLeft;
    s.(k := s.k.(cur := job), startTOD := t, clock := t, timeLeft := left, mode := Running,
       timer := if left < QUANTUM then left else QUANTUM,
       timerFlag := s.timerFlag || left < QUANTUM, dispatches := s.dispatches + 1)
  }

  ghost function GetNewJob(s: State, t: int): State {
    var k := s.k.(cur := null);
    if k.ready != [] then ProcessJob(s.(k := k.(ready := k.ready[1..])), k.ready[0], t)
    else if k.procCount == 0 then s.(k := k, mode := Halted)
    else if k.procCount > 0 && k.softBlock == 0 then s.(k := k, mode := Panicked)
    else if k.procCount > 0 && k.softBlock > 0 then
      s.(k := k, mode := Waiting, timer := s.timeLeft, timerFlag := true)
    else s.(k := k, mode := Lost)
  }

  /** Puts the time since the last start on the current process's sheet. */
  ghost function Charge(s: State, t: int): State {
    if s.k.cur == null || s.k.cur !in s.time then s else
    var elapsed := t - s.startTOD;
    s.(time := s.time[s.k.cur := s.time[s.k.cur] + elapsed], timeLeft := s.timeLeft - elapsed,
       clock := t, charged := s.charged + elapsed)
  }

  /** The sheets of the members of `family` wiped. */
  ghost function Wiped(s: State, family: seq<Pcb>): State {
    s.(time := map p | p in s.time :: if p in family then 0 else s.time[p],
       vec := map p | p in s.vec :: if p in family then NO_VECTORS else s.vec[p])
  }

  ghost function Die(s: State, t: int): State {
    GetNewJob(Wiped(s, Family(s.k)).(k := Nuke(s.k)), t)
  }

  // ------------------------------------------------------------- the calls

  ghost function CreateProcess(s: State): State {
    if s.k.free == [] || s.k.cur == null then s
    else Wiped(s, [s.k.free[0]]).(k := Spawn(s.k, s.k.cur))
  }

  ghost function Verhogen(s: State, a: nat): State {
    var k := s.k.(words := s.k.words[a := Word(s.k, a) + 1]);
    if Word(k, a) > 0 then s.(k := k)
    else if Queue(k, a) == [] then s.(k := k, mode := Lost)
    else s.(k := Wake(k, a))
  }

  ghost function Passeren(s: State, a: nat, t1: int, t2: int): State {
    var k := s.k.(words := s.k.words[a := Word(s.k, a) - 1]);
    if Word(k, a) < 0 then GetNewJob(Charge(s, t1).(k := BlockCur(k, a)), t2) else s.(k := k)
  }

  /** Sets the vectors of the first trap type, from `first` on, that has none. */
  ghost function SetVectors(v: Vectors, first: int, o: nat, n: nat): (r: Vectors) {
    if first == 0 && v.oldTlb == NULL then v.(oldTlb := o, newTlb := n)
    else if 0 <= first <= 1 && v.oldPrgm == NULL then v.(oldPrgm := o, newPrgm := n)
    else if 0 <= first <= 2 && v.oldSys == NULL then v.(oldSys := o, newSys := n)
    else v
  }

  ghost predicate AllSetFrom(v: Vectors, first: int) {
    && (first == 0 ==> v.oldTlb != NULL)
    && (0 <= first <= 1 ==> v.oldPrgm != NULL)
    && (0 <= first <= 2 ==> v.oldSys != NULL)
  }

  ghost function Sesv(s: State, first: int, o: nat, n: nat, t: int): State {
    if s.k.cur == null || s.k.cur !in s.vec then s
    else if AllSetFrom(s.vec[s.k.cur], first) then Die(s, t)
    else s.(vec := s.vec[s.k.cur := SetVectors(s.vec[s.k.cur], first, o, n)])
  }

  ghost function GetCpuTime(s: State, t1: int, t2: int): State {
    Charge(s, t1).(startTOD := t2, clock := t2)
  }

  /** SYS7 and SYS8 on device semaphore `i`: what blocks counts as soft-blocked. */
  ghost function WaitDevice(s: State, i: nat, t1: int, t2: int): State
    requires i < |s.k.dev|
  {
    var k := s.k.(dev := s.k.dev[i := s.k.dev[i] - 1]);
    if k.dev[i] < 0 then
      GetNewJob(Charge(s, t1).(k := BlockCur(k, DevAddr(k, i)).(softBlock := k.softBlock + 1)), t2)
    else s.(k := k)
  }

  ghost function WaitForClock(s: State, t1: int, t2: int): State
    requires CLCKTIMER < |s.k.dev|
  {
    var r := WaitDevice(s, CLCKTIMER, t1, t2);
    if s.k.dev[CLCKTIMER] - 1 < 0 then r else r.(mode := Panicked)
  }

  ghost function OldVector(v: Vectors, trap: Trap): nat {
    match trap
    case TlbTrap => v.oldTlb
    case ProgTrap => v.oldPrgm
    case SysTrap => v.oldSys
  }

  ghost function PassUpOrDie(s: State, trap: Trap, t: int): State {
    if s.k.cur == null || s.k.cur !in s.vec then s
    else if OldVector(s.vec[s.k.cur], trap) != NULL then s
    else Die(s, t)
  }

  // ------------------------------------------------------------ interrupts

  ghost function ReturnFromInterrupt(s: State, t: int): State {
    if s.k.cur != null then s.(startTOD := t, clock := t) else GetNewJob(s, t)
  }

  ghost function Preempt(k: Kern): Kern {
    if k.cur == null then k else k.(ready := k.ready + [k.cur], cur := null)
  }

  ghost function TimerInterrupt(s: State, t1: int, t2: int): State
    requires CLCKTIMER < |s.k.dev|
  {
    var c := Charge(s, t1);
    if c.timerFlag || c.timeLeft < 0 then
      ReturnFromInterrupt(c.(k := Tick(c.k).(dev := c.k.dev[CLCKTIMER := 0]), timer := QUANTUM,
                             timeLeft := INTERVALTIME, timerFlag := false), t2)
    else GetNewJob(c.(k := Preempt(c.k), timer := QUANTUM), t2)
  }

  ghost function DeviceInterrupt(s: State, i: nat, t1: int, t2: int): State
    requires i < |s.k.dev|
  {
    var c := Charge(s, t1);
    var k := c.k.(dev := c.k.dev[i := c.k.dev[i] + 1]);
    if k.dev[i] <= 0 && Queue(k, DevAddr(k, i)) != [] then
      ReturnFromInterrupt(c.(k := Wake(k, DevAddr(k, i)).(softBlock := k.softBlock - 1)), t2)
    else ReturnFromInterrupt(c.(k := k), t2)
  }

  // ----------------------------------------------------------------- steps

  /** What can happen next; `Store` is a program setting up a semaphore of its own. */
  datatype Event =
    | Create
    | Terminate
    | V(a: nat)
    | P(a: nat)
    | SetTrap(first: int, o: nat, n: nat)
    | CpuTime
    | Clock
    | IO(line: nat, device: nat, read: bool)
    | Trapped(trap: Trap)
    | Timer
    | Device(i: nat)
    | Store(a: nat, v: int)

  /** A step: the event and the times of day its handler reads, if it does. */
  datatype Input = Input(e: Event, t1: int, t2: int)

  ghost predicate Enabled(s: State, x: Input) {
    && s.clock <= x.t1 <= x.t2
    && match x.e
       case Timer => s.mode == Running || s.mode == Waiting
       case Device(i) => (s.mode == Running || s.mode == Waiting) && i < CLCKTIMER
       case V(a) => s.mode == Running && Ordinary(s.k, a)
       case P(a) => s.mode == Running && Ordinary(s.k, a)
       case IO(line, device, _) => s.mode == Running && DISKINT <= line <= TERMINT && device < DEVPERINT
       case Store(a, v) => s.mode == Running && Ordinary(s.k, a) && Queue(s.k, a) == [] && v >= 0
       case _ => s.mode == Running
  }

  ghost function Step(s: State, x: Input): State
    requires |s.k.dev| == MAXSEMA
  {
    match x.e
    case Create => CreateProcess(s)
    case Terminate => Die(s, x.t2)
    case V(a) => Verhogen(s, a)
    case P(a) => Passeren(s, a, x.t1, x.t2)
    case SetTrap(first, o, n) => Sesv(s, first, o, n, x.t2)
    case CpuTime => GetCpuTime(s, x.t1, x.t2)
    case Clock => WaitForClock(s, x.t1, x.t2)
    case IO(line, device, read) =>
      if DISKINT <= line && DeviceIndex(line, device, !read) < MAXSEMA
      then WaitDevice(s, DeviceIndex(line, device, !read), x.t1, x.t2) else s
    case Trapped(trap) => PassUpOrDie(s, trap, x.t2)
    case Timer => TimerInterrupt(s, x.t1, x.t2)
    case Device(i) => if i < MAXSEMA then DeviceInterrupt(s, i, x.t1, x.t2) else s
    case Store(a, v) => s.(k := s.k.(words := s.k.words[a := v]))
  }

  /** `t` is reached from `s` by the enabled steps `xs`. */
  ghost predicate Run(s: State, xs: seq<Input>, t: State)
    decreases |xs|
  {
    if xs == [] then t == s
    else |s.k.dev| == MAXSEMA && Enabled(s, xs[0]) && Run(Step(s, xs[0]), xs[1..], t)
  }

  // ------------------------------------------------------------------ start

  /** What the boot sequence leaves: one process, made from the first block of
      the table, and nothing blocked; the scheduler is about to start it. */
  ghost function Initial(table: seq<Pcb>, base: nat, wash: bool, words: map<nat, int>): State
    requires table != []
  {
    var all := Elements(table);
    State(
      Kern(all, base, wash, table[1..], [table[0]], null, map[], Node(table[0], Nil, Nil),
           map p | p in all :: NULL, seq(MAXSEMA, _ => 0), words, 1, 0),
      map p | p in all :: NO_VECTORS, map p | p in all :: 0,
      INTERVALTIME, 0, false, QUANTUM, Running, 0, 0, 0)
  }

  ghost function Booted(table: seq<Pcb>, base: nat, wash: bool, words: map<nat, int>, t: int): State
    requires table != []
  {
    GetNewJob(Initial(table, base, wash, words), t)
  }
}
