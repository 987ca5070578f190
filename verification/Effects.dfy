/** What one step does to the queues, to the semaphores and to the processor, told
    by the event and not by the handler. */
module Effects {
  import opened Sequences
  import opened Pcbs
  import opened Nucleus
  import opened Invariant
  import opened Killing
  import opened Safety
  import Lines

  // ------------------------------------------------------- what the event asks for

  /** Which line, device and direction semaphore `i` belongs to; only terminals
      have a direction. */
  datatype Port = Port(line: nat, device: nat, write: bool)

  function PortOf(i: nat): Port {
    if i < 32 then Port(3 + i / 8, i % 8, false)
    else if i < 40 then Port(7, i - 32, false)
    else Port(7, i - 40, true)
  }

  /** Lines 3 to 7 have eight devices each; terminals have two ports. */
  predicate IsPort(o: Port) {
    3 <= o.line <= 7 && o.device < 8 && (o.write ==> o.line == 7)
  }

  /** Every device semaphore has its own port, and every port its own semaphore. */
  lemma PortsAreSemaphores(i: nat, o: Port)
    ensures i < CLCKTIMER ==> IsPort(PortOf(i)) && DeviceIndex(PortOf(i).line, PortOf(i).device, PortOf(i).write) == i
    ensures IsPort(o) ==>
      var j := DeviceIndex(o.line, o.device, o.write); j < CLCKTIMER && PortOf(j) == o
  {
  }

  /** Two devices share a semaphore if and only if line and device are the same and,
      of a terminal, the direction too. */
  lemma SameSemaphoreIff(l: nat, d: nat, w: bool, l': nat, d': nat, w': bool)
    requires 3 <= l <= 7 && 3 <= l' <= 7 && d < 8 && d' < 8
    ensures DeviceIndex(l, d, w) == DeviceIndex(l', d', w') <==> l == l' && d == d' && (l == 7 ==> w == w')
  {
  }

  /** What a device interrupt names is the port of the lowest interrupting device of
      the lowest pending line. */
  lemma RaisedPort(pending: bv32, bitMaps: seq<bv32>, busy: bool, line: nat, e: Event)
    requires |bitMaps| == 5 && Lines.Raised(pending, bitMaps, busy, line, e) && e.Device? && e.i < CLCKTIMER
    requires forall j :: DISKINT <= j <= TERMINT && Lines.On(pending, j) ==> Lines.SomeDevice(bitMaps[j - DISKINT])
    ensures DISKINT <= line <= TERMINT && Lines.Lowest(pending, 2, line)
    ensures exists d: nat :: RaisedBy(bitMaps, line, d, e.i, busy)
  {
    var d: nat :| Lines.Lowest(bitMaps[line - DISKINT], 0, d) && e == Device(DeviceIndex(line, d, busy));
    assert Lines.On(pending, line);
    hide Lines.On;
    Lines.InReach(bitMaps[line - DISKINT], d);
    PortsAreSemaphores(e.i, Port(line, d, line == 7 && busy));
    assert RaisedBy(bitMaps, line, d, e.i, busy);
  }

  /** Semaphore `i` is that of the lowest device pending on the line. */
  ghost predicate RaisedBy(bitMaps: seq<bv32>, line: nat, d: nat, i: nat, busy: bool) {
    && 3 <= line < 3 + |bitMaps| && d < 8 && Lines.Lowest(bitMaps[line - 3], 0, d)
    && PortOf(i) == Port(line, d, line == 7 && busy)
  }

  /** The address at which the event makes its caller wait, if it has to. */
  ghost predicate Asks(k: Kern, e: Event, b: nat) {
    match e
    case P(a) => b == a
    case Clock => b == k.base + 4 * 48
    case IO(line, device, read) => exists i: nat :: AskedPort(k, line, device, read, b, i)
    case _ => false
  }

  ghost predicate AskedPort(k: Kern, line: nat, device: nat, read: bool, b: nat, i: nat) {
    i < 48 && b == k.base + 4 * i && PortOf(i) == Port(line, device, line == 7 && !read)
  }

  /** The address at which the event gives one waiter leave to go on. */
  ghost predicate Signals(k: Kern, e: Event, b: nat) {
    match e
    case V(a) => b == a
    case Device(i) => b == k.base + 4 * i
    case _ => false
  }

  // ------------------------------------------------------------ what the step does

  /** The time that goes on the current process's sheet when it is stopped at `t`. */
  ghost function Ran(s: State, t: int): int { if s.k.cur == null then 0 else t - s.startTOD }

  /** A timer interrupt that ends the interval. */
  ghost predicate Ticks(s: State, x: Input) {
    x.e.Timer? && (s.timerFlag || s.timeLeft - Ran(s, x.t1) < 0)
  }

  /** The running process of `k` waits in `n`: it lives, and neither runs nor is
      ready. */
  ghost predicate Stops(k: Kern, n: Kern) {
    k.cur != null && k.cur != n.cur && k.cur !in n.ready && k.cur !in n.free
  }

  /** The processes that `x` kills. */
  ghost predicate Fatal(s: State, x: Input) {
    match x.e
    case Terminate => true
    case SetTrap(first, _, _) => s.k.cur != null && s.k.cur in s.vec && AllSetFrom(s.vec[s.k.cur], first)
    case Trapped(trap) => s.k.cur != null && s.k.cur in s.vec && OldVector(s.vec[s.k.cur], trap) == NULL
    case _ => false
  }

  ghost function Index(e: Event): nat {
    match e
    case Clock => CLCKTIMER
    case IO(line, device, read) => if DISKINT <= line then DeviceIndex(line, device, !read) else 0
    case _ => 0
  }

  /** The state before the scheduler is called, if it is. */
  ghost function Mid(s: State, x: Input): Kern
    requires |s.k.dev| == MAXSEMA
  {
    if Fatal(s, x) then Nuke(s.k) else
    match x.e
    case Create => if s.k.free == [] || s.k.cur == null then s.k else Spawn(s.k, s.k.cur)
    case V(a) =>
      if Word(s.k, a) + 1 <= 0 && Queue(s.k, a) != [] then Wake(AddWord(s.k, a, 1), a) else AddWord(s.k, a, 1)
    case P(a) => if Word(s.k, a) - 1 < 0 then BlockCur(AddWord(s.k, a, -1), a) else AddWord(s.k, a, -1)
    case Clock => Wait(s.k, CLCKTIMER)
    case IO(_, _, _) => if Index(x.e) < MAXSEMA then Wait(s.k, Index(x.e)) else s.k
    case Timer => if Ticks(s, x) then Tick(s.k).(dev := s.k.dev[CLCKTIMER := 0]) else Preempt(s.k)
    case Device(i) => if i < MAXSEMA then Signal(s.k, i) else s.k
    case Store(a, v) => s.k.(words := s.k.words[a := v])
    case _ => s.k
  }

  ghost function Wait(k: Kern, i: nat): Kern
    requires i < |k.dev|
  {
    var r := AddDev(k, i, -1);
    if k.dev[i] - 1 < 0 then BlockCur(r, DevAddr(k, i)).(softBlock := k.softBlock + 1) else r
  }

  ghost function Signal(k: Kern, i: nat): Kern
    requires i < |k.dev|
  {
    var r := AddDev(k, i, 1);
    if k.dev[i] + 1 <= 0 && Queue(k, DevAddr(k, i)) != [] then Wake(r, DevAddr(k, i)).(softBlock := k.softBlock - 1)
    else r
  }

  /** Nobody runs: the first of the ready queue does, if there is one. */
  ghost function Dispatched(k: Kern): Kern {
    if k.cur != null || k.ready == [] then k else k.(cur := k.ready[0], ready := k.ready[1..])
  }

  lemma DispatchKern(s: State, t: int)
    ensures GetNewJob(s, t).k == Dispatched(s.k.(cur := null))
  {
  }

  lemma ReturnKern(s: State, t: int)
    ensures ReturnFromInterrupt(s, t).k == Dispatched(s.k)
  {
    DispatchKern(s, t);
    hide GetNewJob;
    assert s.k.cur == null ==> s.k.(cur := null) == s.k;
  }

  lemma ChargeKern(s: State, t: int)
    ensures Charge(s, t).k == s.k && Charge(s, t).timerFlag == s.timerFlag
    ensures (s.k.cur != null ==> s.k.cur in s.time) ==> Charge(s, t).timeLeft == s.timeLeft - Ran(s, t)
  {
  }

  lemma MidIs(s: State, x: Input)
    requires Inv(s) && |s.k.dev| == MAXSEMA && Enabled(s, x)
    ensures Step(s, x).k == Dispatched(Mid(s, x))
  {
    hide Core, Nuke, Wake, Tick, Spawn, BlockCur, Charge, GetNewJob, ReturnFromInterrupt, Die, Passeren, Wait, Signal;
    hide TimerInterrupt, DeviceInterrupt, WaitDevice, Preempt, AddWord, Dispatched;
    Sheeted(s);
    ClockFalls(s);
    hide Inv;
    if Fatal(s, x) {
      DieIs(s, x.t2);
    } else {
      match x.e {
        case P(a) => PassIs(s, a, x);
        case Clock => WaitIs(s, CLCKTIMER, x);
        case IO(l, d, read) => WaitIs(s, DeviceIndex(l, d, !read), x);
        case Timer => TimerIs(s, x);
        case Device(i) => DeviceIs(s, i, x);
        case _ => GoesOn(s, x);
      }
    }
  }

  lemma ClockFalls(s: State)
    requires Inv(s)
    ensures |s.k.dev| == MAXSEMA && s.k.dev[CLCKTIMER] - 1 < 0
  {
    hide Places, OneTree;
  }

  /** What does not stop the current process leaves it running. */
  lemma GoesOn(s: State, x: Input)
    requires |s.k.dev| == MAXSEMA && !Fatal(s, x) && s.k.cur != null
    requires x.e.Create? || x.e.V? || x.e.SetTrap? || x.e.CpuTime? || x.e.Trapped? || x.e.Store?
    ensures Dispatched(Mid(s, x)) == Mid(s, x) && Step(s, x).k == Mid(s, x)
  {
    ChargeKern(s, x.t1);
    hide Charge, Die;
  }

  lemma DieIs(s: State, t: int)
    requires s.k.cur != null
    ensures Die(s, t).k == Dispatched(Nuke(s.k))
  {
    hide GetNewJob, KillAll, Nucleus.Family, Prune;
    DispatchKern(Wiped(s, Nucleus.Family(s.k)).(k := Nuke(s.k)), t);
    assert Nuke(s.k).(cur := null) == Nuke(s.k);
  }

  lemma PassIs(s: State, a: nat, x: Input)
    requires s.k.cur != null
    ensures Passeren(s, a, x.t1, x.t2).k ==
      Dispatched(if Word(s.k, a) - 1 < 0 then BlockCur(AddWord(s.k, a, -1), a) else AddWord(s.k, a, -1))
  {
    hide Charge, GetNewJob;
    var k := AddWord(s.k, a, -1);
    DispatchKern(Charge(s, x.t1).(k := BlockCur(k, a)), x.t2);
    assert BlockCur(k, a).(cur := null) == BlockCur(k, a);
  }

  lemma Sheeted(s: State)
    requires Inv(s)
    ensures s.k.cur != null ==> s.k.cur in s.vec && s.k.cur in s.time
    ensures s.mode == Running ==> s.k.cur != null
    ensures s.mode == Waiting ==> s.k.cur == null
    ensures |s.k.dev| == MAXSEMA
  {
    if s.k.cur != null {
      CurrentLives(s.k);
    }
  }

  lemma RunsIn(s: State, x: Input)
    requires Inv(s) && Enabled(s, x)
    ensures s.clock <= x.t1 <= x.t2
    ensures (s.k.cur != null <==> s.mode == Running) && (!x.e.Timer? && !x.e.Device? ==> s.mode == Running)
    ensures s.k.cur == null ==> s.mode == Waiting && s.timerFlag
    ensures x.e.P? ==> Ordinary(s.k, x.e.a)
    ensures x.e.IO? ==> DISKINT <= x.e.line <= TERMINT && x.e.device < DEVPERINT
    ensures x.e.Device? ==> x.e.i < CLCKTIMER
  {
    hide Core;
  }

  lemma WaitIs(s: State, i: nat, x: Input)
    requires i < |s.k.dev| && s.k.cur != null
    ensures WaitDevice(s, i, x.t1, x.t2).k == Dispatched(Wait(s.k, i))
  {
    hide Charge, GetNewJob;
    var r := AddDev(s.k, i, -1);
    DispatchKern(Charge(s, x.t1).(k := BlockCur(r, DevAddr(s.k, i)).(softBlock := r.softBlock + 1)), x.t2);
    assert BlockCur(r, DevAddr(s.k, i)).(cur := null) == BlockCur(r, DevAddr(s.k, i));
  }

  lemma TimerIs(s: State, x: Input)
    requires CLCKTIMER < |s.k.dev| && (s.k.cur != null ==> s.k.cur in s.time) && x.e.Timer?
    ensures TimerInterrupt(s, x.t1, x.t2).k ==
      Dispatched(if Ticks(s, x) then Tick(s.k).(dev := s.k.dev[CLCKTIMER := 0]) else Preempt(s.k))
  {
    hide Charge, GetNewJob, ReturnFromInterrupt;
    ChargeKern(s, x.t1);
    var c := Charge(s, x.t1);
    if Ticks(s, x) {
      ReturnKern(c.(k := Tick(c.k).(dev := c.k.dev[CLCKTIMER := 0]), timer := QUANTUM, timeLeft := INTERVALTIME,
        timerFlag := false), x.t2);
      assert Tick(s.k).dev == s.k.dev;
      hide Tick;
    } else {
      DispatchKern(c.(k := Preempt(c.k), timer := QUANTUM), x.t2);
      assert Preempt(c.k).(cur := null) == Preempt(c.k);
    }
  }

  lemma DeviceIs(s: State, i: nat, x: Input)
    requires i < |s.k.dev|
    ensures DeviceInterrupt(s, i, x.t1, x.t2).k == Dispatched(Signal(s.k, i))
  {
    hide Wake, Charge, GetNewJob, ReturnFromInterrupt;
    ChargeKern(s, x.t1);
    ReturnKern(Charge(s, x.t1).(k := Signal(s.k, i)), x.t2);
  }
}
