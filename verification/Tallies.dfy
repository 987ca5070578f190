/** What the semaphores are worth, over whole runs: counted by the P, the V, the waits
    and the interrupts that came, and by the waiters that were killed. */
module Tallies {
  import opened Sequences
  import opened Pcbs
  import opened Nucleus
  import opened Invariant
  import opened Killing
  import opened Safety
  import opened Effects
  import opened Queueing
  import Asl

  /** How many of those who wait at `a` in `k` are dead in `n`. */
  ghost function Killed(k: Kern, n: Kern, a: nat): int {
    |Queue(k, a)| - |Without(Queue(k, a), Elements(n.free))|
  }

  /** What a step makes of a semaphore that was worth `w`: set by its program, or up
      one for a V, down one for a P, and up one for each of its waiters killed. */
  ghost function Worth(s: State, x: Input, n: Kern, a: nat, w: int): int {
    if x.e.Store? && x.e.a == a then x.e.v
    else w + (if x.e == V(a) then 1 else 0) - (if x.e == P(a) then 1 else 0) + Killed(s.k, n, a)
  }

  lemma WordStep(s: State, x: Input, a: nat)
    requires Inv(s) && |s.k.dev| == MAXSEMA && Enabled(s, x) && Ordinary(s.k, a)
    ensures Word(Step(s, x).k, a) == Worth(s, x, Step(s, x).k, a, Word(s.k, a))
  {
    MidIs(s, x);
    Sheeted(s);
    CoreOf(s);
    hide Step, Inv, Core, Worth, Dispatched, Enabled;
    if Fatal(s, x) {
      FatalWorth(s, x, Step(s, x).k, a);
    } else {
      MidFree(s, x);
      Undying(s, x, Step(s, x).k, a);
      MidWord(s, x, a);
      QuietWorth(s, x, Step(s, x).k, a);
    }
  }

  lemma FatalWorth(s: State, x: Input, n: Kern, a: nat)
    requires Core(s.k) && s.k.cur != null && n == Dispatched(Nuke(s.k))
    requires x.e.Terminate? || x.e.SetTrap? || x.e.Trapped?
    requires Ordinary(s.k, a)
    ensures Word(n, a) == Worth(s, x, n, a, Word(s.k, a))
  {
    hide *;
    NukedWord(s.k, a);
    FatalKilled(s, x, n, a);
    DispatchedWord(Nuke(s.k), a);
    FatalSum(s, x, n, a);
  }

  lemma FatalSum(s: State, x: Input, n: Kern, a: nat)
    requires x.e.Terminate? || x.e.SetTrap? || x.e.Trapped?
    ensures Worth(s, x, n, a, Word(s.k, a)) == Word(s.k, a) + Killed(s.k, n, a)
  {
    hide Word, Killed;
  }

  lemma FatalKilled(s: State, x: Input, n: Kern, a: nat)
    requires Core(s.k) && s.k.cur != null && n == Dispatched(Nuke(s.k))
    requires x.e.Terminate? || x.e.SetTrap? || x.e.Trapped?
    ensures Killed(s.k, n, a) == |Queue(s.k, a)| - |Queue(Nuke(s.k), a)|
  {
    FatalQueue(s, x, n, a);
    DispatchedQueue(Nuke(s.k), a);
    hide Core, Nuke, Dispatched, Without, Queue, Ticks;
  }

  lemma NukedWord(k: Kern, a: nat)
    requires Core(k) && k.cur != null && Ordinary(k, a)
    ensures Word(Nuke(k), a) - Word(k, a) == |Queue(k, a)| - |Queue(Nuke(k), a)|
  {
    hide Core, Nuke, Nucleus.Family, Queue, Word, Ordinary;
    NukeKeeps(k);
    hide Freed, Unqueued;
  }

  lemma DispatchedWord(k: Kern, a: nat)
    ensures Word(Dispatched(k), a) == Word(k, a)
  {
  }

  lemma QuietWorth(s: State, x: Input, n: Kern, a: nat)
    requires |s.k.dev| == MAXSEMA && n == Dispatched(Mid(s, x))
    requires Without(Queue(s.k, a), Elements(n.free)) == Queue(s.k, a)
    requires Word(Mid(s, x), a) == if x.e.Store? && x.e.a == a then x.e.v
      else Word(s.k, a) + (if x.e == V(a) then 1 else 0) - (if x.e == P(a) then 1 else 0)
    ensures Word(n, a) == Worth(s, x, n, a, Word(s.k, a))
  {
    DispatchedWord(Mid(s, x), a);
    hide Mid, Dispatched, Without, Queue, Word;
  }

  lemma MidWord(s: State, x: Input, a: nat)
    requires |s.k.dev| == MAXSEMA && !Fatal(s, x)
    ensures Word(Mid(s, x), a) == if x.e.Store? && x.e.a == a then x.e.v
      else Word(s.k, a) + (if x.e == V(a) then 1 else 0) - (if x.e == P(a) then 1 else 0)
  {
    hide Ticks, Wake, BlockCur, Tick, Nuke, Spawn, Index, Queue, AddWord, Wait, Signal, Fatal, Preempt, Word;
    var k := s.k;
    match x.e
    case Create => if k.free != [] && k.cur != null { SpawnWords(k, a); }
    case V(b) => WordsBy(k, b, 1, a);
    case P(b) => WordsBy(k, b, -1, a);
    case Clock => WaitWords(k, CLCKTIMER, a);
    case IO(_, _, _) => if Index(x.e) < MAXSEMA { WaitWords(k, Index(x.e), a); }
    case Timer => TickWords(k, a);
    case Device(i) => if i < MAXSEMA { SignalWords(k, i, a); }
    case Store(b, v) => StoreWords(k, b, v, a);
    case _ =>
  }

  lemma SpawnWords(k: Kern, a: nat)
    requires k.free != [] && k.cur != null
    ensures Word(Spawn(k, k.cur), a) == Word(k, a)
  {
  }

  lemma WordsBy(k: Kern, b: nat, d: int, a: nat)
    ensures var w := if a == b then Word(k, a) + d else Word(k, a);
      && Word(AddWord(k, b, d), a) == w && Word(BlockCur(AddWord(k, b, d), b), a) == w
      && Queue(k, b) == Queue(AddWord(k, b, d), b)
      && (Queue(k, b) != [] ==> Word(Wake(AddWord(k, b, d), b), a) == w)
  {
    hide Asl.Requeue;
  }

  lemma WaitWords(k: Kern, i: nat, a: nat)
    requires i < |k.dev|
    ensures Word(Wait(k, i), a) == Word(k, a)
  {
  }

  lemma SignalWords(k: Kern, i: nat, a: nat)
    requires i < |k.dev|
    ensures Word(Signal(k, i), a) == Word(k, a)
  {
    hide Asl.Requeue;
  }

  lemma TickWords(k: Kern, a: nat)
    requires |k.dev| == MAXSEMA
    ensures Word(Tick(k).(dev := k.dev[CLCKTIMER := 0]), a) == Word(k, a) && Word(Preempt(k), a) == Word(k, a)
  {
  }

  lemma StoreWords(k: Kern, b: nat, v: int, a: nat)
    ensures Word(k.(words := k.words[b := v]), a) == if a == b then v else Word(k, a)
  {
  }

  // ------------------------------------------------------------- P, V and their runs

  /** P goes on if and only if the semaphore is positive; otherwise the caller waits at
      the end of the line. */
  lemma PassIff(s: State, x: Input, a: nat)
    requires Inv(s) && |s.k.dev| == MAXSEMA && Enabled(s, x) && x.e == P(a)
    ensures var n := Step(s, x).k;
      && s.k.cur != null
      && (Stops(s.k, n) <==> Word(s.k, a) <= 0)
      && (!Stops(s.k, n) ==> n.cur == s.k.cur && n.ready == s.k.ready)
      && Queue(n, a) == if Stops(s.k, n) then Queue(s.k, a) + [s.k.cur] else Queue(s.k, a)
  {
    hide *;
    CoreOf(s);
    Runs(s, x);
    PassKern(s, x, a);
    PutBy(s.k, a);
  }

  lemma Runs(s: State, x: Input)
    requires Inv(s) && Enabled(s, x) && (x.e.P? || x.e.V?)
    ensures s.k.cur != null && Ordinary(s.k, x.e.a)
  {
    hide Core;
  }

  lemma PassKern(s: State, x: Input, a: nat)
    requires Inv(s) && |s.k.dev| == MAXSEMA && Enabled(s, x) && x.e == P(a)
    ensures Step(s, x).k ==
      Dispatched(if Word(s.k, a) - 1 < 0 then BlockCur(AddWord(s.k, a, -1), a) else AddWord(s.k, a, -1))
  {
    MidIs(s, x);
    hide Inv, Step, Dispatched, BlockCur, AddWord, Word;
  }

  lemma PutBy(k: Kern, a: nat)
    requires Core(k) && k.cur != null && Ordinary(k, a)
    ensures var n := Dispatched(if Word(k, a) - 1 < 0 then BlockCur(AddWord(k, a, -1), a) else AddWord(k, a, -1));
      && (Stops(k, n) <==> Word(k, a) <= 0)
      && (!Stops(k, n) ==> n.cur == k.cur && n.ready == k.ready)
      && Queue(n, a) == if Stops(k, n) then Queue(k, a) + [k.cur] else Queue(k, a)
  {
    var r := AddWord(k, a, -1);
    BlockFits(k, r, a);
    if Word(k, a) - 1 < 0 {
      StopsThen(k, BlockCur(r, a));
      DispatchedQueue(BlockCur(r, a), a);
      hide Core, BlockCur, Stops, Dispatched;
    } else {
      hide Core;
    }
  }

  /** The step lets a process get past semaphore `a`: a P that does not wait, or a V
      after which one waiter fewer waits. */
  ghost predicate GetsPast(s: State, x: Input, n: Kern, a: nat) {
    || (x.e == P(a) && !Stops(s.k, n))
    || (x.e == V(a) && |Queue(n, a)| < |Queue(s.k, a)|)
  }

  /** Each V lets one more get past, and nothing else does: what a semaphore is worth
      and those who got past it add up. */
  lemma PastStep(s: State, x: Input, a: nat)
    requires Inv(s) && |s.k.dev| == MAXSEMA && Enabled(s, x) && Ordinary(s.k, a) && !(x.e.Store? && x.e.a == a)
    ensures var n := Step(s, x).k;
      (if GetsPast(s, x, n, a) then 1 else 0) + Max0(Word(n, a)) ==
      Max0(Word(s.k, a)) + (if x.e == V(a) then 1 else 0)
  {
    WordStep(s, x, a);
    CoreOf(s);
    QueueLength(s.k, a);
    if x.e == P(a) {
      PassIff(s, x, a);
      NoneDies(s, x, a);
    } else if x.e == V(a) {
      VWakes(s, x, a);
      NoneDies(s, x, a);
    }
    hide Inv, Core, Step, Enabled, Word, Queue, Without, Stops;
  }

  lemma NoneDies(s: State, x: Input, a: nat)
    requires Inv(s) && |s.k.dev| == MAXSEMA && Enabled(s, x) && (x.e.P? || x.e.V?)
    ensures Killed(s.k, Step(s, x).k, a) == 0
  {
    MidIs(s, x);
    CoreOf(s);
    assert !Fatal(s, x);
    MidFree(s, x);
    hide Inv, Core, Step, Enabled, Fatal, Dispatched, Mid;
    Undying(s, x, Step(s, x).k, a);
  }

  // ------------------------------------------------------------------------- runs

  ghost function Count(xs: seq<Input>, e: Event): nat {
    if xs == [] then 0 else (if xs[0].e == e then 1 else 0) + Count(xs[1..], e)
  }

  /** No program sets semaphore `a` up. */
  ghost predicate NoStore(xs: seq<Input>, a: nat) {
    forall i :: 0 <= i < |xs| ==> !(xs[i].e.Store? && xs[i].e.a == a)
  }

  /** The waiters on `a` killed in a run. */
  ghost function KilledOver(s: State, xs: seq<Input>, a: nat): int
    decreases |xs|
  {
    if xs == [] || |s.k.dev| != MAXSEMA then 0
    else Killed(s.k, Step(s, xs[0]).k, a) + KilledOver(Step(s, xs[0]), xs[1..], a)
  }

  /** Those who got past `a` in a run. */
  ghost function Past(s: State, xs: seq<Input>, a: nat): nat
    decreases |xs|
  {
    if xs == [] || |s.k.dev| != MAXSEMA then 0
    else (if GetsPast(s, xs[0], Step(s, xs[0]).k, a) then 1 else 0) + Past(Step(s, xs[0]), xs[1..], a)
  }

  /** A step of a run that keeps the invariant and the meaning of addresses. */
  lemma RunStep(s: State, xs: seq<Input>, t: State, a: nat)
    requires Inv(s) && Run(s, xs, t) && (s.k.wash || CleanRun(s, xs)) && xs != []
    ensures |s.k.dev| == MAXSEMA && Enabled(s, xs[0]) && Inv(Step(s, xs[0])) && Run(Step(s, xs[0]), xs[1..], t)
    ensures Step(s, xs[0]).k.wash || CleanRun(Step(s, xs[0]), xs[1..])
    ensures SameMachine(s.k, Step(s, xs[0]).k) && (Ordinary(s.k, a) ==> Ordinary(Step(s, xs[0]).k, a))
  {
    hide Inv, Step, Enabled;
    if s.k.wash {
      RepairedIsClean(s, xs[0]);
    }
    StepKeeps(s, xs[0]);
    StepSameMachine(s, xs[0]);
  }

  /** Over every run: a semaphore that is not set up anew is worth what it was, one more
      for each V and for each of its waiters killed, and one less for each P. */
  lemma {:induction false} WordAccount(s: State, xs: seq<Input>, t: State, a: nat)
    requires Inv(s) && Run(s, xs, t) && (s.k.wash || CleanRun(s, xs)) && Ordinary(s.k, a) && NoStore(xs, a)
    ensures Word(t.k, a) == Word(s.k, a) + Count(xs, V(a)) - Count(xs, P(a)) + KilledOver(s, xs, a)
    ensures KilledOver(s, xs, a) >= 0
    decreases |xs|
  {
    hide Inv, Step, Enabled, Ordinary, Word, Killed, CleanRun;
    if xs != [] {
      RunStep(s, xs, t, a);
      WordStep(s, xs[0], a);
      WordAccount(Step(s, xs[0]), xs[1..], t, a);
      assert Killed(s.k, Step(s, xs[0]).k, a) >= 0 by { KilledIsNat(s.k, Step(s, xs[0]).k, a); }
    }
  }

  lemma KilledIsNat(k: Kern, n: Kern, a: nat)
    ensures Killed(k, n, a) >= 0
  {
  }

  /** Over every run: those who got past a semaphore, and what it is worth now, are what
      it was worth and the V's. So no more get past than it was worth and V's came,
      whoever dies. */
  lemma {:induction false} PastAccount(s: State, xs: seq<Input>, t: State, a: nat)
    requires Inv(s) && Run(s, xs, t) && (s.k.wash || CleanRun(s, xs)) && Ordinary(s.k, a) && NoStore(xs, a)
    ensures Past(s, xs, a) + Max0(Word(t.k, a)) == Max0(Word(s.k, a)) + Count(xs, V(a))
    ensures Past(s, xs, a) <= Max0(Word(s.k, a)) + Count(xs, V(a))
    decreases |xs|
  {
    hide Inv, Step, Enabled, Ordinary, Word, GetsPast, CleanRun;
    if xs != [] {
      RunStep(s, xs, t, a);
      PastStep(s, xs[0], a);
      PastAccount(Step(s, xs[0]), xs[1..], t, a);
    }
  }

  // ----------------------------------------------------- semaphores of the devices

  /** `e` waits for semaphore `i`: SYS7 for the clock, SYS8 for its line, device and,
      of a terminal, direction. */
  ghost predicate WaitsAt(e: Event, i: nat) {
    match e
    case Clock => i == 48
    case IO(line, device, read) => i < 48 && PortOf(i) == Port(line, device, line == 7 && !read)
    case _ => false
  }

  /** A wait takes one from its semaphore, an interrupt adds one, a tick sets the clock's
      to zero, and nothing else, not even the death of waiters, changes any. */
  lemma DevStep(s: State, x: Input, i: nat)
    requires Inv(s) && |s.k.dev| == MAXSEMA && Enabled(s, x) && i < MAXSEMA
    ensures |Step(s, x).k.dev| == MAXSEMA
    ensures Step(s, x).k.dev[i] == if Ticks(s, x) && i == 48 then 0
      else s.k.dev[i] + (if x.e == Device(i) then 1 else 0) - (if WaitsAt(x.e, i) then 1 else 0)
  {
    MidIs(s, x);
    Sheeted(s);
    CoreOf(s);
    Asked(s, x);
    hide Step, Inv, Core, Dispatched, Enabled, WaitsAt;
    DispatchedDev(Mid(s, x));
    MidDev(s, x, i);
  }

  lemma DispatchedDev(k: Kern)
    ensures Dispatched(k).dev == k.dev
  {
  }

  lemma NukedDev(k: Kern)
    requires Core(k) && k.cur != null
    ensures Nuke(k).dev == k.dev
  {
    hide Core, Nuke, Nucleus.Family;
    NukeKeeps(k);
    hide Unqueued, Repaid;
  }

  lemma MidDev(s: State, x: Input, i: nat)
    requires |s.k.dev| == MAXSEMA && i < MAXSEMA && Core(s.k) && (Fatal(s, x) ==> s.k.cur != null)
    requires x.e.IO? ==> DISKINT <= x.e.line <= TERMINT && x.e.device < DEVPERINT
    requires x.e.Device? ==> x.e.i < CLCKTIMER
    ensures |Mid(s, x).dev| == MAXSEMA
    ensures Mid(s, x).dev[i] == if Ticks(s, x) && i == 48 then 0
      else s.k.dev[i] + (if x.e == Device(i) then 1 else 0) - (if WaitsAt(x.e, i) then 1 else 0)
  {
    hide *;
    NextDevAt(s, x, i);
    MidDevs(s, x);
  }

  /** The event names no semaphore that is not there. */
  ghost predicate Known(e: Event) {
    && (e.IO? ==> DISKINT <= e.line && DeviceIndex(e.line, e.device, !e.read) < CLCKTIMER)
    && (e.Device? ==> e.i < CLCKTIMER)
  }

  ghost function NextDev(s: State, x: Input): seq<int>
    requires |s.k.dev| == MAXSEMA && Known(x.e)
  {
    match x.e
    case Clock => s.k.dev[48 := s.k.dev[48] - 1]
    case IO(l, d, read) => s.k.dev[DeviceIndex(l, d, !read) := s.k.dev[DeviceIndex(l, d, !read)] - 1]
    case Device(i) => s.k.dev[i := s.k.dev[i] + 1]
    case Timer => if Ticks(s, x) then s.k.dev[48 := 0] else s.k.dev
    case _ => s.k.dev
  }

  lemma MidDevs(s: State, x: Input)
    requires |s.k.dev| == MAXSEMA && Core(s.k) && (Fatal(s, x) ==> s.k.cur != null) && Known(x.e)
    ensures Mid(s, x).dev == NextDev(s, x)
  {
    assert Fatal(s, x) ==> !x.e.IO? && !x.e.Device? && !x.e.Clock? && !x.e.Timer?;
    hide Core, Ticks, Wake, BlockCur, Tick, Nuke, Spawn, Queue, AddWord, Wait, Signal, Preempt, Word, DeviceIndex;
    hide Fatal;
    if Fatal(s, x) {
      NukedDev(s.k);
    } else if x.e.Clock? || x.e.IO? || x.e.Device? {
      MovedDevs(s, x);
    } else {
      StillDevs(s, x);
    }
  }

  lemma MovedDevs(s: State, x: Input)
    requires |s.k.dev| == MAXSEMA && !Fatal(s, x) && Known(x.e) && (x.e.Clock? || x.e.IO? || x.e.Device?)
    ensures Mid(s, x).dev == NextDev(s, x)
  {
    hide Ticks, Wake, BlockCur, Tick, Nuke, Spawn, Queue, AddWord, Wait, Signal, Preempt, Word, DeviceIndex, Fatal;
    match x.e
    case Clock => WaitDev(s.k, CLCKTIMER);
    case IO(l, d, read) => WaitDev(s.k, DeviceIndex(l, d, !read));
    case Device(j) => SignalDev(s.k, j);
  }

  lemma StillDevs(s: State, x: Input)
    requires |s.k.dev| == MAXSEMA && !Fatal(s, x) && Known(x.e) && !x.e.Clock? && !x.e.IO? && !x.e.Device?
    ensures Mid(s, x).dev == NextDev(s, x)
  {
    hide Ticks, Wake, BlockCur, Tick, Nuke, Spawn, Queue, AddWord, Wait, Signal, Preempt, Word, DeviceIndex, Fatal;
    hide Index;
    match x.e
    case Create => if s.k.free != [] && s.k.cur != null { SpawnDev(s.k); }
    case V(b) => WordsDev(s.k, b, 1);
    case P(b) => WordsDev(s.k, b, -1);
    case Timer => TickDev(s.k);
    case _ =>
  }

  lemma NextDevAt(s: State, x: Input, i: nat)
    requires |s.k.dev| == MAXSEMA && i < MAXSEMA
    requires x.e.IO? ==> DISKINT <= x.e.line <= TERMINT && x.e.device < DEVPERINT
    requires x.e.Device? ==> x.e.i < CLCKTIMER
    ensures Known(x.e) && |NextDev(s, x)| == MAXSEMA
    ensures NextDev(s, x)[i] == if Ticks(s, x) && i == 48 then 0
      else s.k.dev[i] + (if x.e == Device(i) then 1 else 0) - (if WaitsAt(x.e, i) then 1 else 0)
  {
    assert Ticks(s, x) ==> x.e.Timer?;
    Waiting(x.e, i);
    hide Ticks, WaitsAt, DeviceIndex;
  }

  lemma Waiting(e: Event, i: nat)
    requires e.IO? ==> DISKINT <= e.line <= TERMINT && e.device < DEVPERINT
    ensures e.IO? ==> DeviceIndex(e.line, e.device, !e.read) < CLCKTIMER
    ensures e.IO? ==> (WaitsAt(e, i) <==> i == DeviceIndex(e.line, e.device, !e.read))
    ensures !e.IO? ==> (WaitsAt(e, i) <==> e.Clock? && i == CLCKTIMER)
  {
    if e.IO? {
      var o := Port(e.line, e.device, e.line == 7 && !e.read);
      Directionless(e.line, e.device, !e.read);
      PortsAreSemaphores(i, o);
      hide DeviceIndex, PortOf;
    }
  }

  lemma SpawnDev(k: Kern)
    requires k.free != [] && k.cur != null
    ensures Spawn(k, k.cur).dev == k.dev
  {
  }

  lemma WordsDev(k: Kern, b: nat, d: int)
    ensures AddWord(k, b, d).dev == k.dev && BlockCur(AddWord(k, b, d), b).dev == k.dev
    ensures Queue(k, b) == Queue(AddWord(k, b, d), b)
    ensures Queue(k, b) != [] ==> Wake(AddWord(k, b, d), b).dev == k.dev
  {
    hide Asl.Requeue;
  }

  lemma WaitDev(k: Kern, i: nat)
    requires i < |k.dev|
    ensures Wait(k, i).dev == k.dev[i := k.dev[i] - 1]
  {
  }

  lemma SignalDev(k: Kern, i: nat)
    requires i < |k.dev|
    ensures Signal(k, i).dev == k.dev[i := k.dev[i] + 1]
  {
    hide Asl.Requeue;
  }

  lemma TickDev(k: Kern)
    ensures Tick(k).dev == k.dev && Preempt(k).dev == k.dev
  {
  }

  /** The waits of a run at semaphore `i`. */
  ghost function Waits(xs: seq<Input>, i: nat): nat {
    if xs == [] then 0 else (if WaitsAt(xs[0].e, i) then 1 else 0) + Waits(xs[1..], i)
  }

  /** Over every run: a device's semaphore is what it was, plus its interrupts, less the
      waits for it; those of killed waiters stay in the count. */
  lemma {:induction false} DevAccount(s: State, xs: seq<Input>, t: State, i: nat)
    requires Inv(s) && Run(s, xs, t) && (s.k.wash || CleanRun(s, xs)) && i < CLCKTIMER
    ensures |s.k.dev| == |t.k.dev| == MAXSEMA && t.k.dev[i] == s.k.dev[i] + Count(xs, Device(i)) - Waits(xs, i)
    decreases |xs|
  {
    Sheeted(s);
    hide Inv, Step, Enabled, WaitsAt, CleanRun;
    if xs != [] {
      RunStep(s, xs, t, i);
      DevStep(s, xs[0], i);
      DevAccount(Step(s, xs[0]), xs[1..], t, i);
    }
  }
}
