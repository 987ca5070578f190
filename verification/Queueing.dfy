/** Who waits where, over whole runs: each queue holds those who came to wait at its
    address and have neither been let go on nor killed, in the order they came. */
module Queueing {
  import opened Sequences
  import opened Pcbs
  import opened Nucleus
  import opened Invariant
  import opened Killing
  import opened Safety
  import opened Effects
  import Asl
  import Lines

  /** What a step makes of the waiting line `q` at address `b`: the dead leave, then
      whoever waited longest goes on, everybody does, or the caller joins at the end. */
  ghost function NextLine(s: State, x: Input, n: Kern, b: nat, q: seq<Pcb>): seq<Pcb> {
    var stay := Without(q, Elements(n.free));
    if Ticks(s, x) && b == s.k.base + 4 * 48 then []
    else if Signals(s.k, x.e, b) && stay != [] then stay[1..]
    else if Asks(s.k, x.e, b) && Stops(s.k, n) then stay + [s.k.cur]
    else stay
  }

  ghost function Line(s: State, xs: seq<Input>, b: nat, q: seq<Pcb>): seq<Pcb>
    decreases |xs|
  {
    if xs == [] || |s.k.dev| != MAXSEMA then q
    else Line(Step(s, xs[0]), xs[1..], b, NextLine(s, xs[0], Step(s, xs[0]).k, b, q))
  }

  // -------------------------------------------------------------------- one step

  lemma {:induction false} WithoutSame<T>(q: seq<T>, a: set<T>, b: set<T>)
    requires forall x :: x in q ==> (x in a <==> x in b)
    ensures Without(q, a) == Without(q, b)
  {
    if q != [] {
      WithoutSame(q[1..], a, b);
    }
  }

  /** Those who wait are alive and not running. */
  lemma WaitersLive(k: Kern, b: nat)
    requires Places(k)
    ensures forall p :: p in Queue(k, b) ==> p in k.pcbs && p !in k.free && p != k.cur
    ensures Queue(k, b) != [] ==> b != NULL
    ensures NoDup(Queue(k, b))
  {
    hide NoDup;
  }

  lemma QueueStep(s: State, x: Input, b: nat)
    requires Inv(s) && |s.k.dev| == MAXSEMA && Enabled(s, x)
    ensures Queue(Step(s, x).k, b) == NextLine(s, x, Step(s, x).k, b, Queue(s.k, b))
  {
    MidIs(s, x);
    Sheeted(s);
    var n := Step(s, x).k;
    assert Core(s.k);
    hide Step, Inv, Dispatched, NextLine, Core;
    if Fatal(s, x) {
      FatalQueue(s, x, n, b);
    } else {
      MidFree(s, x);
      Undying(s, x, n, b);
      hide Fatal;
      match x.e {
        case V(a) => VQueue(s, x, n, b);
        case P(a) => PQueue(s, x, n, b);
        case Clock => WaitQueue(s, x, n, b, CLCKTIMER);
        case IO(l, d, read) => WaitQueue(s, x, n, b, DeviceIndex(l, d, !read));
        case Timer => TimerQueue(s, x, n, b);
        case Device(i) => DeviceQueue(s, x, n, b);
        case _ => QuietQueue(s, x, n, b);
      }
    }
  }

  lemma MidFree(s: State, x: Input)
    requires |s.k.dev| == MAXSEMA && !Fatal(s, x)
    ensures forall p :: p in Mid(s, x).free ==> p in s.k.free
  {
    hide Ticks, Word, Wake, BlockCur, Tick, Nuke, Spawn, Index, Queue, AddWord, Wait, Signal, Fatal, Preempt;
    var k := s.k;
    match x.e
    case Create => if k.free != [] && k.cur != null { SpawnFree(k); }
    case V(a) => WordFree(k, a, 1);
    case P(a) => WordFree(k, a, -1);
    case Clock => WaitFree(k, CLCKTIMER);
    case IO(_, _, _) => if Index(x.e) < MAXSEMA { WaitFree(k, Index(x.e)); }
    case Timer => TickFree(k);
    case Device(i) => if i < MAXSEMA { SignalFree(k, i); }
    case _ =>
  }

  lemma SpawnFree(k: Kern)
    requires k.free != [] && k.cur != null
    ensures forall p :: p in Spawn(k, k.cur).free ==> p in k.free
  {
  }

  lemma WordFree(k: Kern, a: nat, d: int)
    ensures AddWord(k, a, d).free == k.free && BlockCur(AddWord(k, a, d), a).free == k.free
    ensures Queue(k, a) == Queue(AddWord(k, a, d), a)
    ensures Queue(k, a) != [] ==> Wake(AddWord(k, a, d), a).free == k.free
  {
    hide Asl.Requeue;
  }

  lemma WaitFree(k: Kern, i: nat)
    requires i < |k.dev|
    ensures Wait(k, i).free == k.free
  {
  }

  lemma SignalFree(k: Kern, i: nat)
    requires i < |k.dev|
    ensures Signal(k, i).free == k.free
  {
    hide Asl.Requeue;
  }

  lemma TickFree(k: Kern)
    ensures Tick(k).free == k.free && Preempt(k).free == k.free
  {
  }

  /** A step that kills nobody takes nobody off a queue for being dead. */
  lemma Undying(s: State, x: Input, n: Kern, b: nat)
    requires |s.k.dev| == MAXSEMA && Core(s.k) && n == Dispatched(Mid(s, x))
    requires forall p :: p in Mid(s, x).free ==> p in s.k.free
    ensures Without(Queue(s.k, b), Elements(n.free)) == Queue(s.k, b)
  {
    assert n.free == Mid(s, x).free;
    hide Mid;
    WaitersLive(s.k, b);
    WithoutNothing(Queue(s.k, b), Elements(n.free));
  }

  lemma FatalQueue(s: State, x: Input, n: Kern, b: nat)
    requires Core(s.k) && s.k.cur != null && n == Dispatched(Nuke(s.k))
    requires x.e.Terminate? || x.e.SetTrap? || x.e.Trapped?
    ensures Queue(n, b) == NextLine(s, x, n, b, Queue(s.k, b))
  {
    hide Core, Nuke, Without, Removed;
    var family := Nucleus.Family(s.k);
    NukedQueue(s.k, b);
    CoreWaiters(s.k, b);
    hide Nucleus.Family;
    WithoutSame(Queue(s.k, b), Elements(family), Elements(n.free));
  }

  lemma NukedQueue(k: Kern, b: nat)
    requires Core(k) && k.cur != null
    ensures Queue(Nuke(k), b) == Without(Queue(k, b), Elements(Nucleus.Family(k)))
    ensures Nuke(k).free == k.free + Nucleus.Family(k) && Nuke(k).cur == null
  {
    hide Core, Nuke, Nucleus.Family, Without;
    NukeKeeps(k);
    hide Repaid;
  }

  lemma CoreWaiters(k: Kern, b: nat)
    requires Core(k)
    ensures forall p :: p in Queue(k, b) ==> p in k.pcbs && p !in k.free && p != k.cur
  {
    WaitersLive(k, b);
    hide Places;
  }

  lemma QuietQueue(s: State, x: Input, n: Kern, b: nat)
    requires |s.k.dev| == MAXSEMA && n == Dispatched(Mid(s, x)) && s.k.cur != null
    requires !Fatal(s, x) && (x.e.Create? || x.e.SetTrap? || x.e.CpuTime? || x.e.Trapped? || x.e.Store?)
    requires Without(Queue(s.k, b), Elements(n.free)) == Queue(s.k, b)
    ensures Queue(n, b) == NextLine(s, x, n, b, Queue(s.k, b))
  {
  }

  lemma VQueue(s: State, x: Input, n: Kern, b: nat)
    requires |s.k.dev| == MAXSEMA && Core(s.k) && x.e.V? && Ordinary(s.k, x.e.a)
    requires n == Dispatched(Mid(s, x)) && s.k.cur != null
    requires Without(Queue(s.k, b), Elements(n.free)) == Queue(s.k, b)
    ensures Queue(n, b) == NextLine(s, x, n, b, Queue(s.k, b))
  {
    QueueLength(s.k, x.e.a);
    hide Core, Without;
  }

  lemma PQueue(s: State, x: Input, n: Kern, b: nat)
    requires |s.k.dev| == MAXSEMA && Core(s.k) && x.e.P? && s.k.cur != null && n == Dispatched(Mid(s, x))
    requires Without(Queue(s.k, b), Elements(n.free)) == Queue(s.k, b)
    ensures Queue(n, b) == NextLine(s, x, n, b, Queue(s.k, b))
  {
    var a := x.e.a;
    var r := AddWord(s.k, a, -1);
    if Word(s.k, a) - 1 < 0 {
      BlockFits(s.k, r, a);
      StopsThen(s.k, BlockCur(r, a));
      hide Core, Without, BlockCur, Stops;
    } else {
      hide Core, Without, BlockCur;
    }
  }

  /** There is room for whoever blocks. */
  lemma BlockFits(k: Kern, r: Kern, a: nat)
    requires Core(k) && k.cur != null && r == k.(words := r.words, dev := r.dev)
    ensures BlockCur(r, a) == r.(asl := k.asl[a := Queue(k, a) + [k.cur]], semAdd := k.semAdd[k.cur := a], cur := null)
  {
    RoomToBlock(k);
    hide Core, Places, OneTree, Invariant.Semaphores;
  }

  /** Who gives the processor up, and is put nowhere where it could be found running or
      ready, waits. */
  lemma StopsThen(k: Kern, m: Kern)
    requires Core(k) && k.cur != null && m.cur == null && m.ready == k.ready && m.free == k.free
    ensures Stops(k, Dispatched(m))
  {
    hide NoDup, AslOk, Placed, FreeOk, OneTree, Invariant.Semaphores;
    assert m.ready != [] ==> m.ready[0] in k.ready;
  }

  lemma WaitQueue(s: State, x: Input, n: Kern, b: nat, i: nat)
    requires |s.k.dev| == MAXSEMA && i < MAXSEMA && Core(s.k) && s.k.cur != null && n == Dispatched(Wait(s.k, i))
    requires (x.e.Clock? && i == CLCKTIMER)
      || (x.e.IO? && DISKINT <= x.e.line <= TERMINT && x.e.device < DEVPERINT
          && i == DeviceIndex(x.e.line, x.e.device, !x.e.read))
    requires Without(Queue(s.k, b), Elements(n.free)) == Queue(s.k, b)
    ensures Queue(n, b) == NextLine(s, x, n, b, Queue(s.k, b))
  {
    hide *;
    AsksAt(s.k, x.e, b, i);
    WaitKern(s.k, i);
    DevAddrs(s.k, i);
    if b != s.k.base + 4 * i {
      WaitElsewhere(s.k, i, b);
    }
    NextAsked(s, x, n, b);
  }

  lemma DevAddrs(k: Kern, i: nat)
    ensures DevAddr(k, i) == k.base + 4 * i
  {
  }

  lemma WaitElsewhere(k: Kern, i: nat, b: nat)
    requires i < |k.dev| && b != k.base + 4 * i
    ensures Queue(Dispatched(Wait(k, i)), b) == Queue(k, b)
  {
    hide Core;
  }

  lemma NextAsked(s: State, x: Input, n: Kern, b: nat)
    requires x.e.Clock? || x.e.IO?
    requires Without(Queue(s.k, b), Elements(n.free)) == Queue(s.k, b)
    ensures NextLine(s, x, n, b, Queue(s.k, b)) ==
      if Asks(s.k, x.e, b) && Stops(s.k, n) then Queue(s.k, b) + [s.k.cur] else Queue(s.k, b)
  {
    hide Without, Asks, Stops, Queue;
  }

  lemma AsksAt(k: Kern, e: Event, b: nat, i: nat)
    requires (e.Clock? && i == CLCKTIMER)
      || (e.IO? && DISKINT <= e.line <= TERMINT && e.device < DEVPERINT && i == DeviceIndex(e.line, e.device, !e.read))
    ensures Asks(k, e, b) <==> b == DevAddr(k, i)
  {
    if e.IO? {
      var o := Port(e.line, e.device, e.line == 7 && !e.read);
      Directionless(e.line, e.device, !e.read);
      PortsAreSemaphores(i, o);
      hide DeviceIndex, PortOf;
      if b == DevAddr(k, i) {
        assert AskedPort(k, e.line, e.device, e.read, b, i);
      }
      if Asks(k, e, b) {
        var j: nat :| AskedPort(k, e.line, e.device, e.read, b, j);
        PortsAreSemaphores(j, o);
      }
    }
  }

  lemma Directionless(l: nat, d: nat, w: bool)
    requires DISKINT <= l
    ensures DeviceIndex(l, d, w) == DeviceIndex(l, d, l == 7 && w)
  {
  }

  lemma TimerQueue(s: State, x: Input, n: Kern, b: nat)
    requires |s.k.dev| == MAXSEMA && x.e.Timer? && n == Dispatched(Mid(s, x))
    requires Without(Queue(s.k, b), Elements(n.free)) == Queue(s.k, b)
    ensures Queue(n, b) == NextLine(s, x, n, b, Queue(s.k, b))
  {
    assert Mid(s, x) == if Ticks(s, x) then Tick(s.k).(dev := s.k.dev[CLCKTIMER := 0]) else Preempt(s.k) by {
      hide Tick, Ticks, Preempt, NextLine;
    }
    hide *;
    TickQueues(s.k, b);
    DispatchedQueue(Mid(s, x), b);
    NextTimed(s, x, n, b);
  }

  lemma NextTimed(s: State, x: Input, n: Kern, b: nat)
    requires x.e.Timer? && Without(Queue(s.k, b), Elements(n.free)) == Queue(s.k, b)
    ensures NextLine(s, x, n, b, Queue(s.k, b)) == if Ticks(s, x) && b == s.k.base + 4 * 48 then [] else Queue(s.k, b)
  {
    hide Without, Queue, Ticks;
  }

  lemma TickQueues(k: Kern, b: nat)
    requires CLCKTIMER < |k.dev|
    ensures Queue(Tick(k).(dev := k.dev[CLCKTIMER := 0]), b) == if b == k.base + 4 * 48 then [] else Queue(k, b)
    ensures Queue(Preempt(k), b) == Queue(k, b)
  {
    TickView(k, Tick(k).(dev := k.dev[CLCKTIMER := 0]));
    hide Tick;
  }

  lemma DeviceQueue(s: State, x: Input, n: Kern, b: nat)
    requires |s.k.dev| == MAXSEMA && Core(s.k) && x.e.Device? && x.e.i < CLCKTIMER && n == Dispatched(Mid(s, x))
    requires Without(Queue(s.k, b), Elements(n.free)) == Queue(s.k, b)
    ensures Queue(n, b) == NextLine(s, x, n, b, Queue(s.k, b))
  {
    var i := x.e.i;
    assert Mid(s, x) == Signal(s.k, i) by { hide Core, Signal, NextLine; }
    hide *;
    SignalledWaits(s.k, i);
    SignalQueue(s.k, i, b);
    DispatchedQueue(Signal(s.k, i), b);
    DevAddrs(s.k, i);
    NextSignalled(s, x, n, b);
  }

  lemma NextSignalled(s: State, x: Input, n: Kern, b: nat)
    requires x.e.Device? && Without(Queue(s.k, b), Elements(n.free)) == Queue(s.k, b)
    ensures NextLine(s, x, n, b, Queue(s.k, b)) ==
      if b == s.k.base + 4 * x.e.i && Queue(s.k, b) != [] then Queue(s.k, b)[1..] else Queue(s.k, b)
  {
    hide Without, Queue;
  }

  lemma DispatchedQueue(k: Kern, b: nat)
    ensures Queue(Dispatched(k), b) == Queue(k, b)
  {
  }

  lemma SignalQueue(k: Kern, i: nat, b: nat)
    requires i < |k.dev| && (Queue(k, DevAddr(k, i)) != [] ==> k.dev[i] + 1 <= 0)
    ensures Queue(Signal(k, i), b) ==
      if b == DevAddr(k, i) && Queue(k, b) != [] then Queue(k, b)[1..] else Queue(k, b)
  {
    var a, q := DevAddr(k, i), Queue(k, DevAddr(k, i));
    hide DevAddr;
    if q != [] {
      assert Signal(k, i).asl == Asl.Requeue(k.asl, a, q[1..]);
    }
  }

  lemma SignalledWaits(k: Kern, i: nat)
    requires Core(k) && i < CLCKTIMER
    ensures |k.dev| == MAXSEMA && (Queue(k, DevAddr(k, i)) != [] ==> k.dev[i] + 1 <= 0)
  {
    hide Places, OneTree;
    assert |Queue(k, DevAddr(k, i))| <= Max0(-k.dev[i]);
  }

  // ------------------------------------------------------------------------- runs

  /** In every run each queue is exactly the line of those who came to wait there,
      less the dead and those let go on, in the order they came. */
  lemma {:induction false} QueueIsLine(s: State, xs: seq<Input>, t: State, b: nat)
    requires Inv(s) && Run(s, xs, t) && (s.k.wash || CleanRun(s, xs))
    ensures Queue(t.k, b) == Line(s, xs, b, Queue(s.k, b))
    decreases |xs|
  {
    hide Inv, Step, Enabled, Queue, NextLine;
    if xs != [] {
      if s.k.wash {
        RepairedIsClean(s, xs[0]);
      }
      QueueStep(s, xs[0], b);
      StepKeeps(s, xs[0]);
      StepSameMachine(s, xs[0]);
      QueueIsLine(Step(s, xs[0]), xs[1..], t, b);
    }
  }

  /** From the boot on, when nobody waited. */
  lemma QueueSinceBoot(table: seq<Pcb>, base: nat, wash: bool, words: map<nat, int>, t0: int, xs: seq<Input>, t: State,
    b: nat)
    requires Reached(table, base, wash, words, t0, xs, t)
    ensures Queue(t.k, b) == Line(Booted(table, base, wash, words, t0), xs, b, [])
  {
    var s := Booted(table, base, wash, words, t0);
    BootedInv(table, base, wash, words, t0);
    BootedMachine(table, base, wash, words, t0);
    assert Queue(s.k, b) == [];
    hide Booted, Inv, Run, CleanRun, Line, Queue;
    QueueIsLine(s, xs, t, b);
  }

  // ----------------------------------------------------------- interrupts and waits

  /** The interrupt of a device wakes whoever has waited longest on its semaphore, who
      then runs or is ready, and nobody who waits on anything else. */
  lemma InterruptWakes(s: State, x: Input, b: nat)
    requires Inv(s) && |s.k.dev| == MAXSEMA && Enabled(s, x) && x.e.Device?
    ensures var a, n := s.k.base + 4 * x.e.i, Step(s, x).k;
      && (b != a ==> Queue(n, b) == Queue(s.k, b))
      && (Queue(s.k, a) == [] ==> Queue(n, a) == [])
      && (Queue(s.k, a) != [] ==>
            && Queue(n, a) == Queue(s.k, a)[1..]
            && (Queue(s.k, a)[0] in n.ready || Queue(s.k, a)[0] == n.cur))
  {
    hide *;
    SignalIs(s, x);
    Woken(s.k, x.e.i, b);
  }

  lemma Woken(k: Kern, i: nat, b: nat)
    requires i < |k.dev| && (Queue(k, k.base + 4 * i) != [] ==> k.dev[i] + 1 <= 0)
    ensures var a, n := k.base + 4 * i, Dispatched(Signal(k, i));
      && (b != a ==> Queue(n, b) == Queue(k, b))
      && (Queue(k, a) == [] ==> Queue(n, a) == [])
      && (Queue(k, a) != [] ==>
            && Queue(n, a) == Queue(k, a)[1..]
            && (Queue(k, a)[0] in n.ready || Queue(k, a)[0] == n.cur))
  {
    var a := k.base + 4 * i;
    assert a == DevAddr(k, i);
    hide Queue, Signal, Dispatched, DevAddr;
    SignalQueue(k, i, a);
    SignalQueue(k, i, b);
    SignalReady(k, i);
    DispatchedQueue(Signal(k, i), a);
    DispatchedQueue(Signal(k, i), b);
  }

  lemma SignalIs(s: State, x: Input)
    requires Inv(s) && |s.k.dev| == MAXSEMA && Enabled(s, x) && x.e.Device?
    ensures x.e.i < CLCKTIMER && Step(s, x).k == Dispatched(Signal(s.k, x.e.i))
    ensures x.e.i < |s.k.dev| && (Queue(s.k, s.k.base + 4 * x.e.i) != [] ==> s.k.dev[x.e.i] + 1 <= 0)
  {
    hide Step, Inv, Dispatched, Signal, Core, Enabled;
    MidIs(s, x);
    CoreOf(s);
    Asked(s, x);
    SignalledWaits(s.k, x.e.i);
  }

  lemma SignalReady(k: Kern, i: nat)
    requires i < |k.dev| && (Queue(k, DevAddr(k, i)) != [] ==> k.dev[i] + 1 <= 0)
    ensures Queue(k, DevAddr(k, i)) != [] ==> var p := Queue(k, DevAddr(k, i))[0]; var n := Dispatched(Signal(k, i));
      p in n.ready || p == n.cur
  {
    hide Asl.Requeue;
    if Queue(k, DevAddr(k, i)) != [] {
      var p, m := Queue(k, DevAddr(k, i))[0], Signal(k, i);
      assert m.ready == k.ready + [p] && m.ready[|m.ready| - 1] == p;
    }
  }

  /** So does a V, of whoever waits on its semaphore. */
  lemma VWakes(s: State, x: Input, b: nat)
    requires Inv(s) && |s.k.dev| == MAXSEMA && Enabled(s, x) && x.e.V?
    ensures var a, n := x.e.a, Step(s, x).k;
      && n.cur == s.k.cur
      && (b != a ==> Queue(n, b) == Queue(s.k, b))
      && (Queue(s.k, a) == [] ==> Queue(n, a) == [] && n.ready == s.k.ready)
      && (Queue(s.k, a) != [] ==> Queue(n, a) == Queue(s.k, a)[1..] && n.ready == s.k.ready + [Queue(s.k, a)[0]])
  {
    MidIs(s, x);
    Sheeted(s);
    assert Core(s.k);
    hide Step, Inv, Core;
    QueueLength(s.k, x.e.a);
    VKern(s.k, x.e.a, b);
    hide Dispatched, Wake, Queue, Word, AddWord;
  }

  lemma VKern(k: Kern, a: nat, b: nat)
    requires k.cur != null && |Queue(k, a)| == Max0(-Word(k, a))
    ensures var m := if Word(k, a) + 1 <= 0 && Queue(k, a) != [] then Wake(AddWord(k, a, 1), a) else AddWord(k, a, 1);
      && Dispatched(m) == m && m.cur == k.cur
      && (b != a ==> Queue(m, b) == Queue(k, b))
      && (Queue(k, a) == [] ==> Queue(m, a) == [] && m.ready == k.ready)
      && (Queue(k, a) != [] ==> Queue(m, a) == Queue(k, a)[1..] && m.ready == k.ready + [Queue(k, a)[0]])
  {
  }

  /** SYS8 makes the caller wait exactly when the device's semaphore is not positive,
      and then at the end of the line of that device and direction. */
  lemma WaitsAtPort(s: State, x: Input, i: nat)
    requires Inv(s) && |s.k.dev| == MAXSEMA && Enabled(s, x) && x.e.IO? && i < 48
    requires PortOf(i) == Port(x.e.line, x.e.device, x.e.line == 7 && !x.e.read)
    ensures var a, n := s.k.base + 4 * i, Step(s, x).k;
      && (Stops(s.k, n) <==> s.k.dev[i] <= 0) && s.k.cur != null
      && Queue(n, a) == (if Stops(s.k, n) then Queue(s.k, a) + [s.k.cur] else Queue(s.k, a))
      && (!Stops(s.k, n) ==> n.cur == s.k.cur)
  {
    hide *;
    WaitsBy(s, x, i);
    WaitKern(s.k, i);
  }

  lemma WaitsBy(s: State, x: Input, i: nat)
    requires Inv(s) && |s.k.dev| == MAXSEMA && Enabled(s, x) && x.e.IO? && i < 48
    requires PortOf(i) == Port(x.e.line, x.e.device, x.e.line == 7 && !x.e.read)
    ensures Core(s.k) && s.k.cur != null && i < |s.k.dev| && Step(s, x).k == Dispatched(Wait(s.k, i))
  {
    hide Step, Inv, Core, Dispatched, PortOf, Wait, Enabled, DeviceIndex;
    MidIs(s, x);
    Sheeted(s);
    CoreOf(s);
    Asked(s, x);
    Directionless(x.e.line, x.e.device, !x.e.read);
    PortsAreSemaphores(i, PortOf(i));
  }

  lemma CoreOf(s: State)
    requires Inv(s)
    ensures Core(s.k)
  {
  }

  lemma Asked(s: State, x: Input)
    requires Enabled(s, x)
    ensures x.e.IO? ==> s.mode == Running && DISKINT <= x.e.line <= TERMINT && x.e.device < DEVPERINT
    ensures x.e.Device? ==> x.e.i < CLCKTIMER
  {
  }

  lemma WaitKern(k: Kern, i: nat)
    requires Core(k) && k.cur != null && i < |k.dev|
    ensures var a, n := k.base + 4 * i, Dispatched(Wait(k, i));
      && (Stops(k, n) <==> k.dev[i] <= 0)
      && Queue(n, a) == (if Stops(k, n) then Queue(k, a) + [k.cur] else Queue(k, a))
      && (!Stops(k, n) ==> n.cur == k.cur)
  {
    if k.dev[i] - 1 < 0 {
      WaitBlocks(k, i);
    } else {
      WaitPasses(k, i);
    }
    hide *;
  }

  lemma WaitBlocks(k: Kern, i: nat)
    requires Core(k) && k.cur != null && i < |k.dev| && k.dev[i] - 1 < 0
    ensures var n, a := Dispatched(Wait(k, i)), k.base + 4 * i; Stops(k, n) && Queue(n, a) == Queue(k, a) + [k.cur]
  {
    hide *;
    DevAddrs(k, i);
    WaitPuts(k, i, DevAddr(k, i));
    StopsThen(k, Wait(k, i));
    DispatchedQueue(Wait(k, i), DevAddr(k, i));
  }

  lemma WaitPuts(k: Kern, i: nat, a: nat)
    requires Core(k) && k.cur != null && i < |k.dev| && k.dev[i] - 1 < 0 && a == DevAddr(k, i)
    ensures var m := Wait(k, i);
      m.cur == null && m.ready == k.ready && m.free == k.free && Queue(m, a) == Queue(k, a) + [k.cur]
  {
    BlockFits(k, AddDev(k, i, -1), a);
    hide Core, BlockCur, DevAddr;
  }

  lemma WaitPasses(k: Kern, i: nat)
    requires k.cur != null && i < |k.dev| && k.dev[i] - 1 >= 0
    ensures var n := Dispatched(Wait(k, i));
      !Stops(k, n) && n.cur == k.cur && Queue(n, k.base + 4 * i) == Queue(k, k.base + 4 * i)
  {
  }

  /** An interrupt is for the lowest interrupting device of the lowest pending line: of
      all who wait for devices it wakes whoever has waited longest for that line, device
      and direction, and nobody else. */
  lemma RaisedWakes(s: State, x: Input, pending: bv32, bitMaps: seq<bv32>, busy: bool, line: nat, j: nat)
    returns (d: nat)
    requires Inv(s) && |s.k.dev| == MAXSEMA && Enabled(s, x) && x.e.Device? && j < 48
    requires |bitMaps| == 5 && Lines.Raised(pending, bitMaps, busy, line, x.e)
    requires forall i :: DISKINT <= i <= TERMINT && Lines.On(pending, i) ==> Lines.SomeDevice(bitMaps[i - DISKINT])
    ensures 3 <= line <= 7 && Lines.Lowest(pending, 2, line) && d < 8 && Lines.Lowest(bitMaps[line - 3], 0, d)
    ensures var q, n := Queue(s.k, s.k.base + 4 * j), Step(s, x).k;
      if PortOf(j) == Port(line, d, line == 7 && busy) && q != []
      then Queue(n, s.k.base + 4 * j) == q[1..] && (q[0] in n.ready || q[0] == n.cur)
      else Queue(n, s.k.base + 4 * j) == q
  {
    hide *;
    Asked(s, x);
    SmallerClock();
    RaisedPort(pending, bitMaps, busy, line, x.e);
    d :| RaisedBy(bitMaps, line, d, x.e.i, busy);
    RaisedMeans(bitMaps, line, d, x.e.i, busy, j);
    InterruptWakes(s, x, s.k.base + 4 * j);
  }

  lemma SmallerClock()
    ensures CLCKTIMER == 48 && DISKINT == 3 && TERMINT == 7
  {
  }

  lemma RaisedMeans(bitMaps: seq<bv32>, line: nat, d: nat, i: nat, busy: bool, j: nat)
    requires RaisedBy(bitMaps, line, d, i, busy) && i < 48 && j < 48
    ensures 3 <= line < 3 + |bitMaps| && d < 8 && Lines.Lowest(bitMaps[line - 3], 0, d)
    ensures j == i <==> PortOf(j) == Port(line, d, line == 7 && busy)
  {
    PortsAreSemaphores(i, PortOf(i));
    PortsAreSemaphores(j, PortOf(j));
    hide DeviceIndex, PortOf, Lines.Lowest;
  }

  /** From the boot on: the interrupt of a device wakes whoever came first of those
      who, by SYS8 on exactly that line, device and direction, wait for it. */
  lemma InterruptServesLine(table: seq<Pcb>, base: nat, wash: bool, words: map<nat, int>, t0: int, xs: seq<Input>,
    t: State, x: Input, q: seq<Pcb>)
    requires Reached(table, base, wash, words, t0, xs, t) && |t.k.dev| == MAXSEMA && Enabled(t, x) && x.e.Device?
    requires q == Line(Booted(table, base, wash, words, t0), xs, t.k.base + 4 * x.e.i, [])
    ensures Queue(Step(t, x).k, t.k.base + 4 * x.e.i) == if q == [] then [] else q[1..]
    ensures q != [] ==> q[0] in Step(t, x).k.ready || q[0] == Step(t, x).k.cur
  {
    hide *;
    QueueSinceBoot(table, base, wash, words, t0, xs, t, t.k.base + 4 * x.e.i);
    ReachedInv(table, base, wash, words, t0, xs, t);
    InterruptWakes(t, x, t.k.base + 4 * x.e.i);
  }
}
