/** Time to the unit: what each step charges to whom, what it loses and to what, and
    what it makes of the timer and of the time left in the interval. */
module Charges {
  import opened Sequences
  import opened Pcbs
  import opened Nucleus
  import opened Invariant
  import opened Killing
  import opened Safety
  import opened Effects
  import opened Queueing
  import opened Rota
  import Accounts
  import Asl
  import Tallies
  import Traps

  /** Handlers that stop the clock of whoever runs, and start it anew. */
  predicate Restarts(e: Event) { e.Timer? || e.Device? || e.CpuTime? }

  /** Whoever ran is charged: it asks for its time, is interrupted, or has to wait. */
  ghost predicate Pays(s: State, x: Input, n: Kern) {
    s.k.cur != null && (Restarts(x.e) || Stops(s.k, n))
  }

  /** What is charged: the time since the last start, to the unit. */
  ghost function Gain(s: State, x: Input, n: Kern): int {
    if Pays(s, x, n) then x.t1 - s.startTOD else 0
  }

  /** Someone is given the processor: another than before, or, at the end of a quantum,
      perhaps the same. */
  ghost predicate Begins(s: State, x: Input, n: Kern) {
    n.cur != null && (n.cur != s.k.cur || (x.e.Timer? && !Ticks(s, x)))
  }

  /** The time left in the interval, before the scheduler rounds it up to zero. */
  ghost function Left(s: State, x: Input, n: Kern): int {
    if Ticks(s, x) then INTERVALTIME else s.timeLeft - Gain(s, x, n)
  }

  /** All that a step does to charges and clocks. */
  ghost predicate Timed(s: State, x: Input, n: State) {
    && n.charged == s.charged + Gain(s, x, n.k)
    && (if n.k.cur == null then n.clock == (if Pays(s, x, n.k) then x.t1 else s.clock)
        else n.startTOD == (if Restarts(x.e) || n.k.cur != s.k.cur then x.t2 else s.startTOD))
    && (Begins(s, x, n.k) ==>
          && n.timeLeft == Max0(Left(s, x, n.k))
          && n.timer == (if n.timeLeft < QUANTUM then n.timeLeft else QUANTUM)
          && n.timerFlag == ((s.timerFlag && !Ticks(s, x)) || n.timeLeft < QUANTUM))
    && (n.k.cur != null && !Begins(s, x, n.k) ==>
          && n.timeLeft == Left(s, x, n.k)
          && n.timer == (if Ticks(s, x) then QUANTUM else s.timer)
          && n.timerFlag == (s.timerFlag && !Ticks(s, x)))
    && (n.mode == Waiting ==> n.timer == n.timeLeft == Left(s, x, n.k) && n.timerFlag)
  }

  // -------------------------------------------------------------------- one step

  /** `m` is `s` after a charge or none, and after a tick or none. */
  ghost predicate Reckoned(s: State, x: Input, m: State, gains: bool) {
    && m.charged == s.charged + (if gains then x.t1 - s.startTOD else 0)
    && m.clock == (if gains then x.t1 else s.clock)
    && m.timeLeft == (if Ticks(s, x) then INTERVALTIME else s.timeLeft - if gains then x.t1 - s.startTOD else 0)
    && m.timerFlag == (s.timerFlag && !Ticks(s, x))
  }

  lemma DispatchTimed(s: State, x: Input, m: State, gains: bool)
    requires Reckoned(s, x, m, gains)
    requires var n := GetNewJob(m, x.t2);
      && (gains <==> Pays(s, x, n.k)) && (n.k.cur != null ==> Begins(s, x, n.k))
      && (n.k.cur != null ==> Restarts(x.e) || n.k.cur != s.k.cur)
    ensures Timed(s, x, GetNewJob(m, x.t2))
  {
    hide Ticks, Pays;
  }

  lemma ReturnTimed(s: State, x: Input, m: State, gains: bool)
    requires Reckoned(s, x, m, gains) && Restarts(x.e) && m.k.cur == s.k.cur && (gains <==> s.k.cur != null)
    requires (x.e.Timer? ==> Ticks(s, x)) && (s.k.cur != null ==> m.mode == Running)
    requires m.timer == if Ticks(s, x) then QUANTUM else s.timer
    ensures Timed(s, x, ReturnFromInterrupt(m, x.t2))
  {
    hide Ticks;
    if s.k.cur == null {
      hide Stops, Timed, GetNewJob, Reckoned;
      DispatchTimed(s, x, m, gains);
    } else {
      hide Stops;
    }
  }

  lemma QuietTimed(s: State, x: Input, n: State)
    requires n == s.(k := n.k, vec := n.vec, time := n.time) && n.k.cur == s.k.cur && !Restarts(x.e)
    requires s.k.cur != null && s.mode == Running
    ensures Timed(s, x, n)
  {
  }

  lemma ChargeReckons(s: State, x: Input, k: Kern)
    requires s.k.cur != null ==> s.k.cur in s.time
    ensures !Ticks(s, x) ==> Reckoned(s, x, Charge(s, x.t1).(k := k), s.k.cur != null)
    ensures Ticks(s, x) ==> Reckoned(s, x,
      Charge(s, x.t1).(k := k, timer := QUANTUM, timeLeft := INTERVALTIME, timerFlag := false), s.k.cur != null)
  {
    hide Ticks;
  }

  lemma StepTimed(s: State, x: Input)
    requires Inv(s) && |s.k.dev| == MAXSEMA && Enabled(s, x)
    ensures Timed(s, x, Step(s, x))
  {
    hide *;
    RunsIn(s, x);
    if Fatal(s, x) {
      DieTimed(s, x);
    } else {
      NotTerminate(s, x);
      match x.e {
        case P(a) => PassTimed(s, x, a);
        case CpuTime => CpuTimed(s, x);
        case Clock => IndexIn(x.e); WaitTimed(s, x, CLCKTIMER);
        case IO(l, d, read) => IndexIn(x.e); WaitTimed(s, x, DeviceIndex(l, d, !read));
        case Timer => TimerTimed(s, x);
        case Device(i) => DeviceTimed(s, x, i);
        case _ => GoesOnTimed(s, x);
      }
    }
  }

  lemma NotTerminate(s: State, x: Input)
    requires !Fatal(s, x)
    ensures !x.e.Terminate?
  {
  }

  lemma IndexIn(e: Event)
    requires e.IO? ==> DISKINT <= e.line <= TERMINT && e.device < DEVPERINT
    ensures CLCKTIMER < MAXSEMA && (e.IO? ==> DeviceIndex(e.line, e.device, !e.read) < MAXSEMA)
  {
  }

  lemma GoesOnTimed(s: State, x: Input)
    requires Inv(s) && |s.k.dev| == MAXSEMA && Enabled(s, x) && !Fatal(s, x)
    requires x.e.Create? || x.e.V? || x.e.SetTrap? || x.e.Trapped? || x.e.Store?
    ensures Timed(s, x, Step(s, x))
  {
    RunsIn(s, x);
    Quiet(s, x);
    hide Inv, Core, Timed, Stops, Enabled, Step;
    QuietTimed(s, x, Step(s, x));
  }

  lemma Quiet(s: State, x: Input)
    requires Inv(s) && |s.k.dev| == MAXSEMA && Enabled(s, x) && !Fatal(s, x)
    requires x.e.Create? || x.e.V? || x.e.SetTrap? || x.e.Trapped? || x.e.Store?
    ensures var n := Step(s, x); n == s.(k := n.k, vec := n.vec, time := n.time) && n.k.cur == s.k.cur
  {
    hide *;
    Sheeted(s);
    RunsIn(s, x);
    if x.e.V? {
      VerhogenMode(s, x);
    }
    QuietStep(s, x, Step(s, x));
  }

  lemma VerhogenMode(s: State, x: Input)
    requires Inv(s) && Enabled(s, x) && x.e.V?
    ensures Word(s.k, x.e.a) < 0 ==> Queue(s.k, x.e.a) != []
  {
    hide Core;
    VerhogenStep(s, x.e.a);
  }

  lemma QuietStep(s: State, x: Input, n: State)
    requires |s.k.dev| == MAXSEMA && !Fatal(s, x) && s.k.cur != null && s.k.cur in s.vec && n == Step(s, x)
    requires x.e.Create? || x.e.V? || x.e.SetTrap? || x.e.Trapped? || x.e.Store?
    requires x.e.V? && Word(s.k, x.e.a) < 0 ==> Queue(s.k, x.e.a) != []
    ensures n == s.(k := n.k, vec := n.vec, time := n.time) && n.k.cur == s.k.cur
  {
    hide Wiped, Die;
    if x.e.Create? && s.k.free != [] {
      WipedSheets(s, [s.k.free[0]]);
    }
  }

  lemma DieTimed(s: State, x: Input)
    requires Inv(s) && |s.k.dev| == MAXSEMA && Enabled(s, x) && Fatal(s, x)
    ensures Timed(s, x, Step(s, x))
  {
    hide *;
    Sheeted(s);
    FatalStep(s, x);
    RunsIn(s, x);
    Traps.DeathFrees(s, x.t2);
    DieKeeps(s, x.t2);
    CoreOf(Die(s, x.t2));
    LivesNow(Die(s, x.t2).k);
    NukeReckons(s, x);
    DiedTimed(s, x, Wiped(s, Nucleus.Family(s.k)).(k := Nuke(s.k)), Die(s, x.t2));
  }

  lemma DiedTimed(s: State, x: Input, m: State, n: State)
    requires Reckoned(s, x, m, false) && n == GetNewJob(m, x.t2) && (x.e.Terminate? || x.e.SetTrap? || x.e.Trapped?)
    requires Traps.Dies(s, n) && (n.k.cur != null ==> n.k.cur !in n.k.free)
    ensures Timed(s, x, n)
  {
    hide Reckoned, GetNewJob, Timed;
    DispatchTimed(s, x, m, false);
  }

  lemma LivesNow(k: Kern)
    requires Core(k)
    ensures k.cur != null ==> k.cur !in k.free
  {
    hide OneTree, AslOk, Placed, Invariant.Semaphores;
  }

  lemma FatalStep(s: State, x: Input)
    requires |s.k.dev| == MAXSEMA && Fatal(s, x)
    ensures Step(s, x) == Die(s, x.t2) && (x.e.Terminate? || x.e.SetTrap? || x.e.Trapped?) && !Ticks(s, x)
  {
    hide Die;
  }

  lemma NukeReckons(s: State, x: Input)
    requires !x.e.Timer?
    ensures var m := Wiped(s, Nucleus.Family(s.k)).(k := Nuke(s.k));
      Reckoned(s, x, m, false) && Die(s, x.t2) == GetNewJob(m, x.t2)
  {
    hide Nucleus.Family, Nuke, GetNewJob;
  }

  lemma PassTimed(s: State, x: Input, a: nat)
    requires Inv(s) && |s.k.dev| == MAXSEMA && Enabled(s, x) && x.e == P(a)
    ensures Timed(s, x, Step(s, x))
  {
    hide *;
    Sheeted(s);
    RunsIn(s, x);
    Tallies.PassIff(s, x, a);
    PassStep(s, x, a);
    if Word(s.k, a) - 1 < 0 {
      HeldTimed(s, x, a, Step(s, x));
    } else {
      FreeTimed(s, x, a, Step(s, x));
    }
  }

  lemma FreeTimed(s: State, x: Input, a: nat, n: State)
    requires x.e == P(a) && n == s.(k := n.k) && n.k.cur == s.k.cur && s.k.cur != null && s.mode == Running
    ensures Timed(s, x, n)
  {
    hide Timed;
    QuietTimed(s, x, n);
  }

  lemma PassStep(s: State, x: Input, a: nat)
    requires |s.k.dev| == MAXSEMA && x.e == P(a)
    ensures Step(s, x) ==
      if Word(s.k, a) - 1 < 0 then GetNewJob(Charge(s, x.t1).(k := BlockCur(AddWord(s.k, a, -1), a)), x.t2)
      else s.(k := AddWord(s.k, a, -1))
    ensures AddWord(s.k, a, -1).cur == s.k.cur
  {
    hide Charge, GetNewJob, BlockCur;
  }

  lemma HeldTimed(s: State, x: Input, a: nat, n: State)
    requires x.e == P(a) && s.k.cur != null && s.k.cur in s.time && Stops(s.k, n.k)
    requires n == GetNewJob(Charge(s, x.t1).(k := BlockCur(AddWord(s.k, a, -1), a)), x.t2)
    ensures Timed(s, x, n)
  {
    ChargeReckons(s, x, BlockCur(AddWord(s.k, a, -1), a));
    hide Charge, Timed, Reckoned, GetNewJob, BlockCur, AddWord;
    DispatchTimed(s, x, Charge(s, x.t1).(k := BlockCur(AddWord(s.k, a, -1), a)), true);
  }

  lemma CpuTimed(s: State, x: Input)
    requires Inv(s) && |s.k.dev| == MAXSEMA && Enabled(s, x) && x.e.CpuTime?
    ensures Timed(s, x, Step(s, x))
  {
    hide *;
    Sheeted(s);
    RunsIn(s, x);
    AskedTimed(s, x, Step(s, x));
  }

  lemma AskedTimed(s: State, x: Input, n: State)
    requires |s.k.dev| == MAXSEMA && x.e.CpuTime? && s.k.cur != null && s.k.cur in s.time && s.mode == Running
    requires n == Step(s, x)
    ensures Timed(s, x, n)
  {
    hide Stops;
  }

  /** What SYS7 and SYS8 do. */
  lemma WaitStep(s: State, x: Input, i: nat)
    requires |s.k.dev| == MAXSEMA && i < MAXSEMA && s.k.dev[CLCKTIMER] - 1 < 0
    requires (x.e.Clock? && i == CLCKTIMER)
      || (x.e.IO? && DISKINT <= x.e.line && i == DeviceIndex(x.e.line, x.e.device, !x.e.read))
    ensures Step(s, x) == WaitDevice(s, i, x.t1, x.t2)
  {
    hide WaitDevice, Die, CreateProcess, Passeren, Sesv, PassUpOrDie, TimerInterrupt, DeviceInterrupt, Verhogen;
    hide GetCpuTime;
  }

  lemma WaitTimed(s: State, x: Input, i: nat)
    requires Inv(s) && |s.k.dev| == MAXSEMA && Enabled(s, x) && i < MAXSEMA
    requires (x.e.Clock? && i == CLCKTIMER)
      || (x.e.IO? && DISKINT <= x.e.line && i == DeviceIndex(x.e.line, x.e.device, !x.e.read))
    ensures Timed(s, x, Step(s, x))
  {
    hide *;
    Sheeted(s);
    RunsIn(s, x);
    CoreOf(s);
    ClockFalls(s);
    WaitStep(s, x, i);
    WaitIs(s, i, x);
    WaitKern(s.k, i);
    if s.k.dev[i] - 1 < 0 {
      BlockedTimed(s, x, i, Step(s, x));
    } else {
      PassedTimed(s, x, i, Step(s, x));
    }
  }

  lemma BlockedTimed(s: State, x: Input, i: nat, n: State)
    requires i < |s.k.dev| && s.k.dev[i] - 1 < 0 && n == WaitDevice(s, i, x.t1, x.t2) && (x.e.Clock? || x.e.IO?)
    requires s.k.cur != null && s.k.cur in s.time && Stops(s.k, n.k)
    ensures Timed(s, x, n)
  {
    var k := AddDev(s.k, i, -1);
    var m := BlockCur(k, DevAddr(k, i)).(softBlock := k.softBlock + 1);
    ChargeReckons(s, x, m);
    BlockedWait(s, x, i);
    hide BlockCur, WaitDevice, Timed, GetNewJob, Reckoned, Charge;
    DispatchTimed(s, x, Charge(s, x.t1).(k := m), true);
  }

  lemma BlockedWait(s: State, x: Input, i: nat)
    requires i < |s.k.dev| && s.k.dev[i] - 1 < 0
    ensures var k := AddDev(s.k, i, -1); var m := BlockCur(k, DevAddr(k, i)).(softBlock := k.softBlock + 1);
      WaitDevice(s, i, x.t1, x.t2) == GetNewJob(Charge(s, x.t1).(k := m), x.t2)
  {
    hide BlockCur, GetNewJob, Charge;
  }

  lemma PassedTimed(s: State, x: Input, i: nat, n: State)
    requires i < |s.k.dev| && s.k.dev[i] - 1 >= 0 && n == WaitDevice(s, i, x.t1, x.t2) && (x.e.Clock? || x.e.IO?)
    requires s.k.cur != null && s.mode == Running
    ensures Timed(s, x, n)
  {
    hide Timed;
    QuietTimed(s, x, n);
  }

  lemma TimerTimed(s: State, x: Input)
    requires Inv(s) && |s.k.dev| == MAXSEMA && Enabled(s, x) && x.e.Timer?
    ensures Timed(s, x, Step(s, x))
  {
    hide *;
    Sheeted(s);
    RunsIn(s, x);
    TimerStep(s, x);
    if Ticks(s, x) {
      TickTimed(s, x);
    } else {
      if s.k.cur == null {
        WaitingTicks(s, x);
      }
      PreemptTimed(s, x);
    }
  }

  lemma WaitingTicks(s: State, x: Input)
    requires x.e.Timer? && s.timerFlag
    ensures Ticks(s, x)
  {
  }

  ghost function Ticked(s: State, t: int): State
    requires |s.k.dev| == MAXSEMA
  {
    Charge(s, t).(k := Tick(s.k).(dev := s.k.dev[CLCKTIMER := 0]), timer := QUANTUM, timeLeft := INTERVALTIME,
      timerFlag := false)
  }

  lemma TimerStep(s: State, x: Input)
    requires |s.k.dev| == MAXSEMA && x.e.Timer? && (s.k.cur != null ==> s.k.cur in s.time)
    ensures Step(s, x) == if Ticks(s, x) then ReturnFromInterrupt(Ticked(s, x.t1), x.t2)
      else GetNewJob(Charge(s, x.t1).(k := Preempt(s.k), timer := QUANTUM), x.t2)
  {
    ChargeKern(s, x.t1);
    hide Charge, GetNewJob, ReturnFromInterrupt, Tick, Preempt;
  }

  lemma TickTimed(s: State, x: Input)
    requires |s.k.dev| == MAXSEMA && x.e.Timer? && Ticks(s, x) && (s.k.cur != null ==> s.k.cur in s.time)
    requires s.k.cur != null <==> s.mode == Running
    ensures Timed(s, x, ReturnFromInterrupt(Ticked(s, x.t1), x.t2))
  {
    ChargeReckons(s, x, Tick(s.k).(dev := s.k.dev[CLCKTIMER := 0]));
    ChargeMode(s, x.t1);
    hide Charge, Ticks, Timed, Reckoned, ReturnFromInterrupt;
    ReturnTimed(s, x, Ticked(s, x.t1), s.k.cur != null);
  }

  lemma PreemptTimed(s: State, x: Input)
    requires |s.k.dev| == MAXSEMA && x.e.Timer? && !Ticks(s, x) && s.k.cur != null && s.k.cur in s.time
    ensures Timed(s, x, GetNewJob(Charge(s, x.t1).(k := Preempt(s.k), timer := QUANTUM), x.t2))
  {
    ChargeReckons(s, x, Preempt(s.k));
    hide Charge, Ticks, Timed, Reckoned, GetNewJob, Preempt, Stops;
    DispatchTimed(s, x, Charge(s, x.t1).(k := Preempt(s.k), timer := QUANTUM), true);
  }

  lemma ChargeMode(s: State, t: int)
    ensures Charge(s, t).mode == s.mode && Charge(s, t).timer == s.timer
  {
  }

  lemma DeviceTimed(s: State, x: Input, i: nat)
    requires Inv(s) && |s.k.dev| == MAXSEMA && Enabled(s, x) && x.e == Device(i)
    ensures Timed(s, x, Step(s, x))
  {
    Sheeted(s);
    RunsIn(s, x);
    ChargeKern(s, x.t1);
    ChargeMode(s, x.t1);
    ChargeReckons(s, x, Signal(s.k, i));
    SignalCur(s.k, i);
    DeviceSignals(s, x, i);
    hide Inv, Core, Timed, Enabled, GetNewJob, Reckoned, Charge, Stops, ReturnFromInterrupt, Signal, Step;
    ReturnTimed(s, x, Charge(s, x.t1).(k := Signal(s.k, i)), s.k.cur != null);
  }

  lemma SignalCur(k: Kern, i: nat)
    requires i < |k.dev|
    ensures Signal(k, i).cur == k.cur
  {
    hide Asl.Requeue;
  }

  lemma DeviceSignals(s: State, x: Input, i: nat)
    requires i < |s.k.dev| == MAXSEMA && x.e == Device(i)
    ensures Step(s, x) == ReturnFromInterrupt(Charge(s, x.t1).(k := Signal(s.k, i)), x.t2)
  {
    hide Wake, Charge, ReturnFromInterrupt;
    ChargeKern(s, x.t1);
  }

  // --------------------------------------------------------------- what SYS6 answers

  /** SYS6 answers the time on the caller's sheet and, to the unit, what has passed
      since it was last started; and it charges exactly that. */
  lemma Reading(s: State, x: Input)
    requires Inv(s) && |s.k.dev| == MAXSEMA && Enabled(s, x) && x.e == CpuTime
    ensures s.k.cur != null && s.k.cur in s.time && s.k.cur in Step(s, x).time && Step(s, x).k.cur == s.k.cur
    ensures Step(s, x).time[s.k.cur] == s.time[s.k.cur] + (x.t1 - s.startTOD)
    ensures Step(s, x).startTOD == x.t2
  {
    hide *;
    Sheeted(s);
    RunsIn(s, x);
    ReadingOf(s, x, Step(s, x));
  }

  lemma ReadingOf(s: State, x: Input, n: State)
    requires |s.k.dev| == MAXSEMA && x.e == CpuTime && s.k.cur != null && s.k.cur in s.time && n == Step(s, x)
    ensures n.k.cur == s.k.cur && n.startTOD == x.t2
    ensures s.k.cur in n.time && n.time[s.k.cur] == s.time[s.k.cur] + (x.t1 - s.startTOD)
  {
  }

  /** A step gives whoever ran, if it survives, exactly its gain, and no other
      survivor anything. */
  lemma SheetStep(s: State, x: Input, p: Pcb)
    requires Inv(s) && |s.k.dev| == MAXSEMA && Enabled(s, x)
    requires p in s.k.pcbs && p !in s.k.free && p !in Step(s, x).k.free
    ensures p in s.time && p in Step(s, x).time
    ensures Step(s, x).time[p] == s.time[p] + if p == s.k.cur then Gain(s, x, Step(s, x).k) else 0
  {
    hide *;
    StepTimed(s, x);
    Accounts.StepBalances(s, x);
    SheetOf(s, x, Step(s, x), p);
  }

  lemma SheetOf(s: State, x: Input, n: State, p: Pcb)
    requires Timed(s, x, n) && Accounts.Balanced(s, n) && p in s.k.pcbs && p !in s.k.free && p !in n.k.free
    ensures p in s.time && p in n.time && n.time[p] == s.time[p] + if p == s.k.cur then Gain(s, x, n.k) else 0
  {
    hide Gain;
  }

  // ------------------------------------------------------------------------- runs

  /** What a run charges to `p`. */
  ghost function GainOver(s: State, xs: seq<Input>, p: Pcb): int
    decreases |xs|
  {
    if xs == [] || |s.k.dev| != MAXSEMA then 0
    else (if p == s.k.cur then Gain(s, xs[0], Step(s, xs[0]).k) else 0) + GainOver(Step(s, xs[0]), xs[1..], p)
  }

  /** Over every run: the sheet of a process that lives through it grows by exactly the
      intervals that ended while it ran. */
  lemma {:induction false} SheetAccount(s: State, xs: seq<Input>, t: State, p: Pcb)
    requires Inv(s) && Run(s, xs, t) && (s.k.wash || CleanRun(s, xs)) && Accounts.LivesThrough(s, xs, p)
    ensures p in s.time && p in t.time && t.time[p] == s.time[p] + GainOver(s, xs, p)
    decreases |xs|
  {
    hide Inv, Step, Enabled, Gain, CleanRun;
    if xs == [] {
      HasSheet(s, p);
    } else {
      Tallies.RunStep(s, xs, t, 0);
      Accounts.LivesOn(s, xs, p);
      SheetStep(s, xs[0], p);
      SheetAccount(Step(s, xs[0]), xs[1..], t, p);
    }
  }

  lemma HasSheet(s: State, p: Pcb)
    requires Inv(s) && p in s.k.pcbs
    ensures p in s.time
  {
    hide Core;
  }

  /** Time that a step takes from everybody: while a handler runs, while nobody does,
      and the last interval of whoever dies. */
  ghost function Lost(s: State, x: Input, n: State): int {
    if Pays(s, x, n.k) then (if n.k.cur == null then 0 else x.t2 - x.t1)
    else if s.k.cur != null && n.k.cur == s.k.cur then 0
    else (if n.k.cur == null then s.clock else x.t2) - Accounts.Settled(s)
  }

  ghost function ChargedOver(s: State, xs: seq<Input>): int
    decreases |xs|
  {
    if xs == [] || |s.k.dev| != MAXSEMA then 0
    else Gain(s, xs[0], Step(s, xs[0]).k) + ChargedOver(Step(s, xs[0]), xs[1..])
  }

  ghost function LostOver(s: State, xs: seq<Input>): int
    decreases |xs|
  {
    if xs == [] || |s.k.dev| != MAXSEMA then 0
    else Lost(s, xs[0], Step(s, xs[0])) + LostOver(Step(s, xs[0]), xs[1..])
  }

  lemma ElapsedStep(s: State, x: Input)
    requires Inv(s) && |s.k.dev| == MAXSEMA && Enabled(s, x)
    ensures var n := Step(s, x);
      && n.charged == s.charged + Gain(s, x, n.k) && Gain(s, x, n.k) >= 0 && Lost(s, x, n) >= 0
      && Accounts.Settled(n) == Accounts.Settled(s) + Gain(s, x, n.k) + Lost(s, x, n)
  {
    hide *;
    StepTimed(s, x);
    RunsIn(s, x);
    InOrder(s);
    Elapses(s, x, Step(s, x));
  }

  lemma InOrder(s: State)
    requires Inv(s)
    ensures s.startTOD <= s.clock
  {
    hide Core;
  }

  lemma Elapses(s: State, x: Input, n: State)
    requires Timed(s, x, n) && s.startTOD <= s.clock <= x.t1 <= x.t2
    ensures n.charged == s.charged + Gain(s, x, n.k) && Gain(s, x, n.k) >= 0 && Lost(s, x, n) >= 0
    ensures Accounts.Settled(n) == Accounts.Settled(s) + Gain(s, x, n.k) + Lost(s, x, n)
  {
    hide Begins, Ticks, Left;
  }

  /** Over every run, time is conserved: what passes is what is charged and what is
      lost, step by step. */
  lemma {:induction false} ElapsedAccount(s: State, xs: seq<Input>, t: State)
    requires Inv(s) && Run(s, xs, t) && (s.k.wash || CleanRun(s, xs))
    ensures t.charged == s.charged + ChargedOver(s, xs)
    ensures Accounts.Settled(t) == Accounts.Settled(s) + ChargedOver(s, xs) + LostOver(s, xs)
    ensures ChargedOver(s, xs) >= 0 && LostOver(s, xs) >= 0
    decreases |xs|
  {
    hide Inv, Step, Enabled, Gain, Lost, Accounts.Settled, CleanRun;
    if xs != [] {
      Tallies.RunStep(s, xs, t, 0);
      ElapsedStep(s, xs[0]);
      ElapsedAccount(Step(s, xs[0]), xs[1..], t);
    }
  }

  /** `p` runs all the time, and no handler of `xs` stops its clock. */
  ghost predicate Undisturbed(s: State, xs: seq<Input>, p: Pcb)
    decreases |xs|
  {
    && s.k.cur == p
    && (xs == [] || (|s.k.dev| == MAXSEMA && !Restarts(xs[0].e) && Undisturbed(Step(s, xs[0]), xs[1..], p)))
  }

  lemma {:induction false} UndisturbedKeeps(s: State, xs: seq<Input>, t: State, p: Pcb)
    requires Inv(s) && Run(s, xs, t) && (s.k.wash || CleanRun(s, xs)) && Undisturbed(s, xs, p)
    ensures Inv(t) && t.k.cur == p && t.startTOD == s.startTOD
    ensures p in s.time && p in t.time && t.time[p] == s.time[p]
    decreases |xs|
  {
    hide Inv, Step, Enabled, CleanRun, Restarts;
    if xs == [] {
      Sheeted(s);
    } else {
      Tallies.RunStep(s, xs, t, 0);
      UndisturbedStep(s, xs[0]);
      UndisturbedKeeps(Step(s, xs[0]), xs[1..], t, p);
    }
  }

  lemma UndisturbedStep(s: State, x: Input)
    requires Inv(s) && |s.k.dev| == MAXSEMA && Enabled(s, x) && !Restarts(x.e)
    requires s.k.cur != null && Step(s, x).k.cur == s.k.cur && Inv(Step(s, x))
    ensures s.k.cur in s.time && s.k.cur in Step(s, x).time
    ensures Step(s, x).time[s.k.cur] == s.time[s.k.cur] && Step(s, x).startTOD == s.startTOD
  {
    hide *;
    Sheeted(s);
    Sheeted(Step(s, x));
    CoreOf(s);
    CoreOf(Step(s, x));
    CurrentLives(s.k);
    LivesNow(s.k);
    LivesNow(Step(s, x).k);
    StepTimed(s, x);
    SheetStep(s, x, s.k.cur);
    NoGain(s, x, Step(s, x));
  }

  lemma NoGain(s: State, x: Input, n: State)
    requires Timed(s, x, n) && !Restarts(x.e) && s.k.cur != null && n.k.cur == s.k.cur
    ensures Gain(s, x, n.k) == 0 && n.startTOD == s.startTOD
  {
    hide Begins, Ticks, Left;
  }

  /** Two SYS6 of one process between which nobody else ran and nothing interrupted it
      differ by exactly the time between the end of the first and the second. */
  lemma TwoReadingsExact(s: State, x: Input, xs: seq<Input>, u: State, y: Input, p: Pcb)
    requires Inv(s) && |s.k.dev| == MAXSEMA && Enabled(s, x) && x.e == CpuTime && s.k.cur == p
    requires Run(Step(s, x), xs, u) && Undisturbed(Step(s, x), xs, p) && (s.k.wash || CleanRun(Step(s, x), xs))
    requires |u.k.dev| == MAXSEMA && Enabled(u, y) && y.e == CpuTime
    ensures p in Step(s, x).time && p in Step(u, y).time
    ensures Step(u, y).time[p] - Step(s, x).time[p] == y.t1 - x.t2
  {
    hide *;
    Reading(s, x);
    NotCreate(s, x);
    StepKeeps(s, x);
    StepSameMachine(s, x);
    WashOf(s.k, Step(s, x).k);
    UndisturbedKeeps(Step(s, x), xs, u, p);
    Reading(u, y);
  }

  lemma NotCreate(s: State, x: Input)
    requires x.e == CpuTime
    ensures CleanSpawn(s, x)
  {
  }

  lemma WashOf(k: Kern, r: Kern)
    requires SameMachine(k, r)
    ensures r.wash == k.wash
  {
  }

  // ------------------------------------------------------------- timer and interval

  /** Whoever is given the processor has the timer set to the smaller of a quantum and
      the time left, which is never negative. */
  lemma TimerAtDispatch(s: State, x: Input)
    requires Inv(s) && |s.k.dev| == MAXSEMA && Enabled(s, x) && Begins(s, x, Step(s, x).k)
    ensures var n := Step(s, x);
      && 0 <= n.timeLeft && n.timer <= QUANTUM && n.timer <= n.timeLeft && (n.timer == QUANTUM || n.timer == n.timeLeft)
      && n.timeLeft == Max0(Left(s, x, n.k))
      && (n.timerFlag <==> n.timeLeft < QUANTUM || (s.timerFlag && !Ticks(s, x)))
  {
    hide *;
    StepTimed(s, x);
    AtDispatch(s, x, Step(s, x));
  }

  lemma AtDispatch(s: State, x: Input, n: State)
    requires Timed(s, x, n) && Begins(s, x, n.k)
    ensures 0 <= n.timeLeft && n.timer <= QUANTUM && n.timer <= n.timeLeft
    ensures n.timer == QUANTUM || n.timer == n.timeLeft
    ensures n.timeLeft == Max0(Left(s, x, n.k))
    ensures n.timerFlag <==> n.timeLeft < QUANTUM || (s.timerFlag && !Ticks(s, x))
  {
    hide Ticks, Left;
  }

  /** The time left falls by what is charged and by nothing else, until a tick sets it
      back to a whole interval. */
  lemma IntervalStep(s: State, x: Input)
    requires Inv(s) && |s.k.dev| == MAXSEMA && Enabled(s, x)
    ensures var n := Step(s, x);
      var left := if Ticks(s, x) then INTERVALTIME else s.timeLeft - (n.charged - s.charged);
      && (Begins(s, x, n.k) ==> n.timeLeft == Max0(left))
      && ((n.k.cur != null && !Begins(s, x, n.k)) || n.mode == Waiting ==> n.timeLeft == left)
  {
    hide *;
    StepTimed(s, x);
    Interval(s, x, Step(s, x));
  }

  lemma Interval(s: State, x: Input, n: State)
    requires Timed(s, x, n)
    ensures var left := if Ticks(s, x) then INTERVALTIME else s.timeLeft - (n.charged - s.charged);
      && (Begins(s, x, n.k) ==> n.timeLeft == Max0(left))
      && ((n.k.cur != null && !Begins(s, x, n.k)) || n.mode == Waiting ==> n.timeLeft == left)
  {
    hide Ticks, Begins, Gain;
  }

  /** A timer interrupt ends the interval if and only if the flag is set or the time
      left has run out; then everyone waiting for the clock goes on behind the ready, and
      whoever ran goes on running. Otherwise whoever ran goes to the end of the ready
      queue, and nobody else moves. */
  lemma TimerVerdict(s: State, x: Input)
    requires Inv(s) && |s.k.dev| == MAXSEMA && Enabled(s, x) && x.e == Timer
    ensures s.k.cur != null ==> (Ticks(s, x) <==> s.timerFlag || s.timeLeft < x.t1 - s.startTOD)
    ensures s.k.cur == null ==> Ticks(s, x)
    ensures var n, c := Step(s, x).k, s.k.base + 4 * 48;
      && (Ticks(s, x) ==> Queue(n, c) == [] && Order(n) == Order(s.k) + Queue(s.k, c))
      && (!Ticks(s, x) ==> s.k.cur != null && Queue(n, c) == Queue(s.k, c) && Order(n) == s.k.ready + [s.k.cur])
  {
    hide *;
    RunsIn(s, x);
    TickIff(s, x);
    CoreOf(s);
    Sheeted(s);
    MidIs(s, x);
    TimerMid(s, x);
    TimerOrder(s.k);
  }

  lemma TimerOrder(k: Kern)
    requires CLCKTIMER < |k.dev|
    ensures var n, c := Dispatched(Tick(k).(dev := k.dev[CLCKTIMER := 0])), k.base + 4 * 48;
      Queue(n, c) == [] && Order(n) == Order(k) + Queue(k, c)
    ensures var n, c := Dispatched(Preempt(k)), k.base + 4 * 48;
      Queue(n, c) == Queue(k, c) && (k.cur != null ==> Order(n) == k.ready + [k.cur])
  {
    hide *;
    TickQueues(k, k.base + 4 * 48);
    DispatchedQueue(Tick(k).(dev := k.dev[CLCKTIMER := 0]), k.base + 4 * 48);
    DispatchedQueue(Preempt(k), k.base + 4 * 48);
    DispatchedFirst(Tick(k).(dev := k.dev[CLCKTIMER := 0]));
    DispatchedFirst(Preempt(k));
    TickOrder(k);
  }

  /** After the boot the first block of the table runs, with no time on its sheet, a whole
      interval before it and a quantum on the timer; all semaphores are zero. */
  lemma BootRuns(table: seq<Pcb>, base: nat, wash: bool, words: map<nat, int>, t0: int)
    requires table != []
    ensures var s := Booted(table, base, wash, words, t0);
      && Order(s.k) == [table[0]] && s.k.free == table[1..] && s.k.procCount == 1 && s.k.softBlock == 0
      && s.time[table[0]] == 0 && s.timeLeft == 100000 && s.timer == 5000 && !s.timerFlag && s.startTOD == t0
      && s.charged == 0 && s.k.dev == seq(49, i => 0) && forall b :: Queue(s.k, b) == []
  {
  }
}
