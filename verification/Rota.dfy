/** Who runs and who is ready, in their order: what every step makes of it. */
module Rota {
  import opened Sequences
  import opened Pcbs
  import opened Nucleus
  import opened Invariant
  import opened Killing
  import opened Safety
  import opened Effects
  import opened Queueing
  import Asl
  import Tallies

  /** Whoever runs, and then the ready, in their order. */
  ghost function Order(k: Kern): seq<Pcb> {
    (if k.cur == null then [] else [k.cur]) + k.ready
  }

  /** Whoever the event lets go on: the one who has waited longest at its address. */
  ghost function LetGo(s: State, x: Input): seq<Pcb> {
    var q := match x.e
      case V(a) => Queue(s.k, a)
      case Device(i) => Queue(s.k, s.k.base + 4 * i)
      case _ => [];
    if q == [] then [] else [q[0]]
  }

  /** What a step makes of the order: the dead leave it, then the clock's waiters join at
      the end, or whoever runs goes to the end, or, having to wait, leaves; or who was let
      go on, or was created, joins at the end. */
  ghost function NextOrder(s: State, x: Input, n: Kern): seq<Pcb> {
    var stay := Without(Order(s.k), Elements(n.free));
    if Ticks(s, x) then stay + Queue(s.k, s.k.base + 4 * 48)
    else if x.e.Timer? && stay != [] then stay[1..] + [stay[0]]
    else if Stops(s.k, n) && stay != [] then stay[1..]
    else if x.e.Create? && s.k.free != [] then stay + [s.k.free[0]]
    else stay + LetGo(s, x)
  }

  /** Every step makes of the order just that, and the first in it, if there is one,
      runs. */
  lemma OrderStep(s: State, x: Input)
    requires Inv(s) && |s.k.dev| == MAXSEMA && Enabled(s, x)
    ensures Order(Step(s, x).k) == NextOrder(s, x, Step(s, x).k)
    ensures Step(s, x).k.cur == null <==> Order(Step(s, x).k) == []
  {
    hide *;
    MidIs(s, x);
    Sheeted(s);
    CoreOf(s);
    DispatchedFirst(Mid(s, x));
    RunsIn(s, x);
    if Fatal(s, x) {
      FatalMid(s, x);
      FatalOrder(s, x, Step(s, x).k);
    } else {
      MidFree(s, x);
      DispatchedFree(Mid(s, x));
      AllStay(s.k, Step(s, x).k);
      AliveOrder(s, x, Step(s, x).k);
    }
  }

  lemma DispatchedFirst(k: Kern)
    ensures Order(Dispatched(k)) == Order(k) && (Dispatched(k).cur == null <==> Order(k) == [])
  {
  }

  lemma DispatchedFree(k: Kern)
    ensures Dispatched(k).free == k.free
  {
  }

  lemma AllStay(k: Kern, n: Kern)
    requires Core(k) && forall p: Pcb :: p in n.free ==> p in k.free
    ensures Without(Order(k), Elements(n.free)) == Order(k)
  {
    hide NoDup, AslOk, Placed, FreeOk, OneTree, Invariant.Semaphores, Without;
    WithoutNothing(Order(k), Elements(n.free));
  }

  lemma FatalMid(s: State, x: Input)
    requires |s.k.dev| == MAXSEMA && Fatal(s, x)
    ensures Mid(s, x) == Nuke(s.k) && !x.e.Timer? && !x.e.Device?
  {
    hide Nuke;
  }

  lemma FatalOrder(s: State, x: Input, n: Kern)
    requires Core(s.k) && s.k.cur != null && n == Dispatched(Nuke(s.k)) && Fatal(s, x)
    ensures Order(n) == NextOrder(s, x, n)
  {
    hide *;
    DispatchedFirst(Nuke(s.k));
    DispatchedFree(Nuke(s.k));
    NukedOrder(s.k);
    FatalNext(s, x, n);
  }

  lemma NukedOrder(k: Kern)
    requires Core(k) && k.cur != null
    ensures Order(Nuke(k)) == Without(Order(k), Elements(Nuke(k).free))
    ensures k.cur in Nuke(k).free
  {
    NukeKeeps(k);
    ReadyLive(k);
    var family := Nucleus.Family(k);
    assert k.cur in family;
    hide Core, Nuke, Nucleus.Family, Without, Repaid;
    WithoutSame(k.ready, Elements(family), Elements(Nuke(k).free));
    WithoutHead(Order(k), Elements(Nuke(k).free));
    assert Order(k)[1..] == k.ready;
  }

  lemma ReadyLive(k: Kern)
    requires Core(k)
    ensures forall p :: p in k.ready ==> p !in k.free
  {
    hide NoDup, AslOk, Placed, FreeOk, OneTree, Invariant.Semaphores;
  }

  lemma FatalNext(s: State, x: Input, n: Kern)
    requires Fatal(s, x) && s.k.cur != null && s.k.cur in n.free
    ensures NextOrder(s, x, n) == Without(Order(s.k), Elements(n.free))
  {
    hide Without, Order;
    assert LetGo(s, x) == [];
  }

  lemma AliveOrder(s: State, x: Input, n: Kern)
    requires Inv(s) && Core(s.k) && |s.k.dev| == MAXSEMA && Enabled(s, x) && !Fatal(s, x)
    requires n == Step(s, x).k == Dispatched(Mid(s, x))
    requires Without(Order(s.k), Elements(n.free)) == Order(s.k) && Order(n) == Order(Mid(s, x))
    ensures Order(n) == NextOrder(s, x, n)
  {
    hide *;
    RunsIn(s, x);
    match x.e
    case Create => CreateOrder(s, x, n);
    case V(a) => VerhogenOrder(s, x, n);
    case P(a) => Tallies.PassIff(s, x, a); PassOrder(s, x, n, a);
    case Clock => WaitMid(s, x, CLCKTIMER); WaitOrder(s, x, n, CLCKTIMER);
    case IO(l, d, read) => WaitMid(s, x, DeviceIndex(l, d, !read)); WaitOrder(s, x, n, DeviceIndex(l, d, !read));
    case Timer => TimedOrder(s, x, n);
    case Device(i) => DeviceOrder(s, x, n, i);
    case _ => QuietOrder(s, x, n);
  }

  /** Nobody has to wait, and the clock does not tick. */
  lemma StayNext(s: State, x: Input, n: Kern)
    requires !x.e.Timer? && (n.cur == s.k.cur || !Stops(s.k, n)) && Without(Order(s.k), Elements(n.free)) == Order(s.k)
    ensures NextOrder(s, x, n) ==
      if x.e.Create? && s.k.free != [] then Order(s.k) + [s.k.free[0]] else Order(s.k) + LetGo(s, x)
  {
    hide Without, Order, LetGo;
  }

  lemma StopNext(s: State, x: Input, n: Kern)
    requires !x.e.Timer? && Stops(s.k, n) && Without(Order(s.k), Elements(n.free)) == Order(s.k)
    ensures NextOrder(s, x, n) == s.k.ready
  {
    hide Without;
  }

  lemma CreateOrder(s: State, x: Input, n: Kern)
    requires |s.k.dev| == MAXSEMA && x.e.Create? && s.k.cur != null && n == Dispatched(Mid(s, x))
    requires Without(Order(s.k), Elements(n.free)) == Order(s.k) && Order(n) == Order(Mid(s, x)) && !Fatal(s, x)
    ensures Order(n) == NextOrder(s, x, n)
  {
    StayNext(s, x, n);
    hide Without, NextOrder;
  }

  lemma QuietOrder(s: State, x: Input, n: Kern)
    requires |s.k.dev| == MAXSEMA && s.k.cur != null && n == Dispatched(Mid(s, x)) && !Fatal(s, x)
    requires x.e.SetTrap? || x.e.CpuTime? || x.e.Trapped? || x.e.Store? || x.e.Terminate?
    requires Without(Order(s.k), Elements(n.free)) == Order(s.k) && Order(n) == Order(Mid(s, x))
    ensures Order(n) == NextOrder(s, x, n)
  {
    hide *;
    QuietMid(s, x);
    NotStopped(s.k, Mid(s, x));
    NobodyGoes(s, x);
    StayNext(s, x, n);
  }

  lemma QuietMid(s: State, x: Input)
    requires |s.k.dev| == MAXSEMA && !Fatal(s, x)
    requires x.e.SetTrap? || x.e.CpuTime? || x.e.Trapped? || x.e.Store? || x.e.Terminate?
    ensures Order(Mid(s, x)) == Order(s.k) && Mid(s, x).cur == s.k.cur
  {
  }

  lemma VerhogenOrder(s: State, x: Input, n: Kern)
    requires Inv(s) && |s.k.dev| == MAXSEMA && Enabled(s, x) && x.e.V? && n == Step(s, x).k
    requires Without(Order(s.k), Elements(n.free)) == Order(s.k)
    ensures Order(n) == NextOrder(s, x, n)
  {
    VWakes(s, x, x.e.a);
    StayNext(s, x, n);
    hide Inv, Enabled, Step, Queue, Without, NextOrder;
  }

  lemma PassOrder(s: State, x: Input, n: Kern, a: nat)
    requires |s.k.dev| == MAXSEMA && x.e == P(a) && s.k.cur != null && n == Dispatched(Mid(s, x))
    requires Stops(s.k, n) <==> Word(s.k, a) <= 0
    requires Without(Order(s.k), Elements(n.free)) == Order(s.k) && Order(n) == Order(Mid(s, x))
    ensures Order(n) == NextOrder(s, x, n)
  {
    hide *;
    PassedOrder(s, x, a);
    if Stops(s.k, n) {
      StopNext(s, x, n);
    } else {
      StayNext(s, x, n);
    }
  }

  lemma PassedOrder(s: State, x: Input, a: nat)
    requires |s.k.dev| == MAXSEMA && x.e == P(a) && s.k.cur != null
    ensures Order(Mid(s, x)) == if Word(s.k, a) <= 0 then s.k.ready else Order(s.k)
    ensures Order(s.k) + LetGo(s, x) == Order(s.k)
  {
    hide Queue, Word;
  }

  lemma WaitMid(s: State, x: Input, i: nat)
    requires |s.k.dev| == MAXSEMA && !Fatal(s, x)
    requires (x.e.Clock? && i == CLCKTIMER) || (x.e.IO? && DISKINT <= x.e.line <= TERMINT
      && x.e.device < DEVPERINT && i == DeviceIndex(x.e.line, x.e.device, !x.e.read))
    ensures i < |s.k.dev| && Mid(s, x) == Wait(s.k, i)
  {
    hide Wait;
  }

  lemma WaitedOrder(k: Kern, i: nat)
    requires k.cur != null && i < |k.dev|
    ensures Order(Wait(k, i)) == if k.dev[i] <= 0 then k.ready else Order(k)
  {
  }

  lemma WaitOrder(s: State, x: Input, n: Kern, i: nat)
    requires Core(s.k) && s.k.cur != null && i < |s.k.dev| && n == Dispatched(Wait(s.k, i)) && (x.e.Clock? || x.e.IO?)
    requires Without(Order(s.k), Elements(n.free)) == Order(s.k) && Order(n) == Order(Wait(s.k, i))
    ensures Order(n) == NextOrder(s, x, n)
  {
    hide *;
    WaitKern(s.k, i);
    WaitedOrder(s.k, i);
    NobodyGoes(s, x);
    if Stops(s.k, n) {
      StopNext(s, x, n);
    } else {
      StayNext(s, x, n);
    }
  }

  lemma NobodyGoes(s: State, x: Input)
    requires !x.e.V? && !x.e.Device?
    ensures Order(s.k) + LetGo(s, x) == Order(s.k)
  {
    hide Order;
  }

  lemma TimerMid(s: State, x: Input)
    requires |s.k.dev| == MAXSEMA && x.e == Timer
    ensures CLCKTIMER < |s.k.dev|
    ensures Mid(s, x) == if Ticks(s, x) then Tick(s.k).(dev := s.k.dev[CLCKTIMER := 0]) else Preempt(s.k)
  {
    hide Tick, Ticks, Preempt;
  }

  lemma TickOrder(k: Kern)
    requires CLCKTIMER < |k.dev|
    ensures Order(Tick(k).(dev := k.dev[CLCKTIMER := 0])) == Order(k) + Queue(k, k.base + 4 * 48)
    ensures k.cur != null ==> Order(Preempt(k)) == k.ready + [k.cur]
  {
    hide Queue;
    DevAddrs(k, CLCKTIMER);
    hide DevAddr;
  }

  lemma TickIff(s: State, x: Input)
    requires x.e == Timer && (s.k.cur == null ==> s.timerFlag)
    ensures s.k.cur != null ==> (Ticks(s, x) <==> s.timerFlag || s.timeLeft < x.t1 - s.startTOD)
    ensures s.k.cur == null ==> Ticks(s, x)
  {
  }

  lemma TimedOrder(s: State, x: Input, n: Kern)
    requires |s.k.dev| == MAXSEMA && x.e == Timer && (s.k.cur == null ==> s.timerFlag)
    requires Without(Order(s.k), Elements(n.free)) == Order(s.k) && Order(n) == Order(Mid(s, x))
    ensures Order(n) == NextOrder(s, x, n)
  {
    TimerMid(s, x);
    TickOrder(s.k);
    hide Mid, Without, Preempt, Tick, Stops;
  }

  lemma DeviceOrder(s: State, x: Input, n: Kern, i: nat)
    requires Inv(s) && |s.k.dev| == MAXSEMA && Enabled(s, x) && x.e == Device(i) && n == Step(s, x).k
    requires Without(Order(s.k), Elements(n.free)) == Order(s.k)
    ensures Order(n) == NextOrder(s, x, n)
  {
    hide *;
    SignalIs(s, x);
    SignalledOrder(s.k, i);
    DispatchedFirst(Signal(s.k, i));
    NotStopped(s.k, Signal(s.k, i));
    SignalledNext(s, x, n, i);
  }

  lemma SignalledOrder(k: Kern, i: nat)
    requires i < |k.dev| && (Queue(k, k.base + 4 * i) != [] ==> k.dev[i] + 1 <= 0)
    ensures var q := Queue(k, k.base + 4 * i);
      Order(Signal(k, i)) == Order(k) + if q == [] then [] else [q[0]]
    ensures Signal(k, i).cur == k.cur
  {
    assert DevAddr(k, i) == k.base + 4 * i;
    hide Queue, DevAddr, Asl.Requeue;
  }

  lemma NotStopped(k: Kern, m: Kern)
    requires m.cur == k.cur
    ensures !Stops(k, Dispatched(m))
  {
  }

  lemma SignalledNext(s: State, x: Input, n: Kern, i: nat)
    requires x.e == Device(i) && Without(Order(s.k), Elements(n.free)) == Order(s.k) && !Stops(s.k, n)
    ensures var q := Queue(s.k, s.k.base + 4 * i);
      NextOrder(s, x, n) == Order(s.k) + if q == [] then [] else [q[0]]
  {
    StayNext(s, x, n);
    hide NextOrder, Without, Order, Queue;
  }
}
