/** Processor time and trap areas over whole runs: no moment is charged twice,
    and a trap area once set stays set. */
module Accounts {
  import opened Sequences
  import opened Pcbs
  import opened Nucleus
  import opened Invariant
  import opened Killing
  import opened Safety
  import KernelFacts

  /** The moment up to which time has been charged or given away. */
  ghost function Settled(s: State): int { if s.k.cur != null then s.startTOD else s.clock }

  /** The trap areas set in `v` are set in `w`, to the same addresses. */
  ghost predicate Extends(v: Vectors, w: Vectors) {
    && (v.oldTlb != NULL ==> w.oldTlb == v.oldTlb && w.newTlb == v.newTlb)
    && (v.oldPrgm != NULL ==> w.oldPrgm == v.oldPrgm && w.newPrgm == v.newPrgm)
    && (v.oldSys != NULL ==> w.oldSys == v.oldSys && w.newSys == v.newSys)
  }

  /** What a step does to the sheets of its survivors. */
  ghost predicate Balanced(s: State, t: State) {
    && s.time.Keys == t.time.Keys == s.vec.Keys == t.vec.Keys == s.k.pcbs
    && 0 <= t.charged - s.charged <= Settled(t) - Settled(s)
    && (forall p :: p in s.k.pcbs && p !in s.k.free && p !in t.k.free ==>
          t.time[p] == s.time[p] + if p == s.k.cur then t.charged - s.charged else 0)
    && (forall p :: p in s.k.pcbs && p !in s.k.free && p !in t.k.free ==> Extends(s.vec[p], t.vec[p]))
  }

  lemma DispatchSheets(s: State, t: int)
    ensures var r := GetNewJob(s, t);
      && r.time == s.time && r.vec == s.vec && r.charged == s.charged && r.k.free == s.k.free && r.k.pcbs == s.k.pcbs
      && (if r.k.cur != null then r.startTOD == t else r.clock == s.clock)
  {
  }

  lemma ReturnSheets(s: State, t: int)
    ensures var r := ReturnFromInterrupt(s, t);
      && r.time == s.time && r.vec == s.vec && r.charged == s.charged && r.k.free == s.k.free && r.k.pcbs == s.k.pcbs
      && (s.k.cur != null ==> r.k.cur != null)
      && (if r.k.cur != null then r.startTOD == t else r.clock == s.clock)
  {
    hide GetNewJob;
    DispatchSheets(s, t);
  }

  lemma ChargedOnce(s: State, t: int)
    requires s.k.cur != null && s.k.cur in s.time
    ensures var c := Charge(s, t);
      && c.k == s.k && c.vec == s.vec && c.clock == t && c.charged == s.charged + (t - s.startTOD)
      && c.time == s.time[s.k.cur := s.time[s.k.cur] + (t - s.startTOD)]
  {
  }

  /** A step that charges the running process up to `t1` and ends at `r`. */
  lemma ChargeBalances(s: State, t1: int, t2: int, r: State)
    requires Inv(s) && s.k.cur != null && s.clock <= t1 <= t2
    requires r.time == Charge(s, t1).time && r.vec == s.vec && r.charged == Charge(s, t1).charged
    requires r.k.pcbs == s.k.pcbs
    requires if r.k.cur != null then r.startTOD == t2 else r.clock == t1
    ensures Balanced(s, r)
  {
    CurrentLives(s.k);
    ChargedOnce(s, t1);
    hide Core, Charge;
  }

  /** A step that charges nobody. */
  lemma IdleBalances(s: State, t: int, r: State)
    requires Inv(s) && s.clock <= t
    requires r.time == s.time && r.vec == s.vec && r.charged == s.charged && r.k.pcbs == s.k.pcbs
    requires if r.k.cur != null then r.startTOD == t || (s.k.cur != null && r.startTOD == s.startTOD)
             else r.clock == s.clock
    ensures Balanced(s, r)
  {
    hide Core;
  }

  /** A step that charges nobody and wipes the sheets of some who are free before
      or after it. */
  lemma WipedBalances(s: State, family: seq<Pcb>, r: State)
    requires s.time.Keys == s.vec.Keys == s.k.pcbs && r.k.pcbs == s.k.pcbs
    requires r.time == Wiped(s, family).time && r.vec == Wiped(s, family).vec && r.charged == s.charged
    requires forall p :: p in family ==> p in s.k.free || p in r.k.free
    requires Settled(s) <= Settled(r)
    ensures Balanced(s, r)
  {
    WipedSheets(s, family);
    WipedKeys(s, family);
    hide Wiped, Settled;
  }

  lemma CreateBalances(s: State)
    requires Inv(s) && s.mode == Running
    ensures Balanced(s, CreateProcess(s))
  {
    hide Core, Spawn, Wiped;
    SpawnFields(s.k);
    if s.k.free == [] {
      IdleBalances(s, s.clock, s);
    } else {
      WipedSheets(s, [s.k.free[0]]);
      assert s.k.free[0] in s.k.free;
      WipedBalances(s, [s.k.free[0]], CreateProcess(s));
    }
  }

  lemma SpawnFields(k: Kern)
    ensures k.free != [] && k.cur != null ==> Spawn(k, k.cur).pcbs == k.pcbs && Spawn(k, k.cur).cur == k.cur
  {
  }

  lemma DieBalances(s: State, t: int)
    requires Inv(s) && s.mode == Running && s.clock <= t
    ensures Balanced(s, Die(s, t))
  {
    hide Core, Nuke, Nucleus.Family, GetNewJob, Removed, Wiped;
    var family := Nucleus.Family(s.k);
    var m := Wiped(s, family).(k := Nuke(s.k));
    NukeKeeps(s.k);
    NukeSameMachine(s.k);
    WipedSheets(s, family);
    DispatchSheets(m, t);
    FreedFamily(s.k, Nuke(s.k), family);
    WipedBalances(s, family, Die(s, t));
  }

  lemma WipedKeys(s: State, family: seq<Pcb>)
    ensures forall p :: p in s.vec && p !in family ==> Wiped(s, family).vec[p] == s.vec[p]
  {
  }

  lemma FreedFamily(k: Kern, r: Kern, family: seq<Pcb>)
    requires Removed(k, r, family)
    ensures forall p :: p in family ==> p in r.free
  {
    hide Unqueued, Repaid;
  }

  lemma PasserenBalances(s: State, a: nat, t1: int, t2: int)
    requires Inv(s) && s.mode == Running && s.clock <= t1 <= t2
    ensures Balanced(s, Passeren(s, a, t1, t2))
  {
    var k := AddWord(s.k, a, -1);
    CurrentLives(s.k);
    ChargedOnce(s, t1);
    BlockSameMachine(k, a);
    var c := Charge(s, t1).(k := BlockCur(k, a));
    DispatchSheets(c, t2);
    hide Core, BlockCur, Charge, GetNewJob;
    if Word(k, a) < 0 {
      ChargeBalances(s, t1, t2, Passeren(s, a, t1, t2));
    } else {
      IdleBalances(s, t1, Passeren(s, a, t1, t2));
    }
  }

  lemma WaitBalances(s: State, i: nat, t1: int, t2: int)
    requires Inv(s) && s.mode == Running && s.clock <= t1 <= t2 && i < |s.k.dev|
    ensures Balanced(s, WaitDevice(s, i, t1, t2))
  {
    hide Core, BlockCur, Charge, GetNewJob, Balanced;
    KernelFacts.WaitDeviceIs(s, i, t1, t2);
    CurrentLives(s.k);
    ChargedOnce(s, t1);
    var k := AddDev(s.k, i, -1);
    BlockSameMachine(k, DevAddr(k, i));
    DispatchSheets(Charge(s, t1).(k := BlockCur(k, DevAddr(k, i)).(softBlock := k.softBlock + 1)), t2);
    hide WaitDevice;
    if s.k.dev[i] - 1 < 0 {
      ChargeBalances(s, t1, t2, WaitDevice(s, i, t1, t2));
    } else {
      IdleBalances(s, t1, WaitDevice(s, i, t1, t2));
    }
  }

  lemma SesvBalances(s: State, first: int, o: nat, n: nat, t: int)
    requires Inv(s) && s.mode == Running && s.clock <= t
    ensures Balanced(s, Sesv(s, first, o, n, t))
  {
    CurrentLives(s.k);
    hide Core, Die;
    if AllSetFrom(s.vec[s.k.cur], first) {
      DieBalances(s, t);
    }
  }

  lemma TrappedBalances(s: State, trap: Trap, t: int)
    requires Inv(s) && s.mode == Running && s.clock <= t
    ensures Balanced(s, PassUpOrDie(s, trap, t))
  {
    hide Core, Die;
    DieBalances(s, t);
    IdleBalances(s, t, s);
  }

  /** An interrupt charges whoever it interrupts. */
  lemma InterruptBalances(s: State, t1: int, t2: int, m: State, r: State)
    requires Inv(s) && s.clock <= t1 <= t2
    requires m.time == Charge(s, t1).time && m.vec == s.vec && m.charged == Charge(s, t1).charged
    requires m.k.pcbs == s.k.pcbs && m.clock == Charge(s, t1).clock
    requires r.time == m.time && r.vec == m.vec && r.charged == m.charged && r.k.pcbs == m.k.pcbs
    requires if r.k.cur != null then r.startTOD == t2 else r.clock == m.clock
    ensures Balanced(s, r)
  {
    if s.k.cur != null {
      CurrentLives(s.k);
      ChargedOnce(s, t1);
      hide Core, Charge;
      ChargeBalances(s, t1, t2, r);
    } else {
      hide Core;
      IdleBalances(s, t2, r);
    }
  }

  lemma TimerBalances(s: State, t1: int, t2: int)
    requires Inv(s) && |s.k.dev| == MAXSEMA && s.clock <= t1 <= t2
    ensures Balanced(s, TimerInterrupt(s, t1, t2))
  {
    var c := Charge(s, t1);
    ChargeSameKern(s, t1);
    ChargeVec(s, t1);
    hide Charge, GetNewJob, ReturnFromInterrupt, Inv;
    var m := if c.timerFlag || c.timeLeft < 0 then
        c.(k := Tick(c.k).(dev := c.k.dev[CLCKTIMER := 0]), timer := QUANTUM, timeLeft := INTERVALTIME,
          timerFlag := false)
      else c.(k := Preempt(c.k), timer := QUANTUM);
    ReturnSheets(m, t2);
    DispatchSheets(m, t2);
    InterruptBalances(s, t1, t2, m, TimerInterrupt(s, t1, t2));
  }

  lemma ChargeVec(s: State, t: int)
    ensures Charge(s, t).vec == s.vec
  {
  }

  lemma DeviceBalances(s: State, i: nat, t1: int, t2: int)
    requires Inv(s) && i < |s.k.dev| && s.clock <= t1 <= t2
    ensures Balanced(s, DeviceInterrupt(s, i, t1, t2))
  {
    hide Charge, GetNewJob, ReturnFromInterrupt, Inv, Wake, Balanced;
    KernelFacts.DeviceInterruptIs(s, i, t1, t2);
    hide DeviceInterrupt;
    ChargeVec(s, t1);
    var k := AddDev(s.k, i, 1);
    if Queue(k, DevAddr(k, i)) != [] {
      WakeFields(k, DevAddr(k, i));
    }
    var m := Charge(s, t1).(k := if s.k.dev[i] + 1 <= 0 then KernelFacts.SignalDevice(k, i) else k);
    ReturnSheets(m, t2);
    InterruptBalances(s, t1, t2, m, DeviceInterrupt(s, i, t1, t2));
  }

  lemma StepBalances(s: State, x: Input)
    requires Inv(s) && |s.k.dev| == MAXSEMA && Enabled(s, x)
    ensures Balanced(s, Step(s, x))
  {
    hide Inv, Balanced, Die, CreateProcess, Passeren, Sesv, PassUpOrDie, WaitDevice, TimerInterrupt, DeviceInterrupt;
    match x.e
    case Create => CreateBalances(s);
    case Terminate => DieBalances(s, x.t2);
    case V(a) => IdleBalances(s, x.t1, Verhogen(s, a));
    case P(a) => PasserenBalances(s, a, x.t1, x.t2);
    case SetTrap(first, o, n) => SesvBalances(s, first, o, n, x.t2);
    case CpuTime => CpuTimeBalances(s, x.t1, x.t2);
    case Clock => ClockBalances(s, x.t1, x.t2);
    case IO(l, d, read) => WaitBalances(s, DeviceIndex(l, d, !read), x.t1, x.t2);
    case Trapped(trap) => TrappedBalances(s, trap, x.t2);
    case Timer => TimerBalances(s, x.t1, x.t2);
    case Device(i) => DeviceBalances(s, i, x.t1, x.t2);
    case Store(a, v) => IdleBalances(s, x.t1, s.(k := s.k.(words := s.k.words[a := v])));
  }

  lemma CpuTimeBalances(s: State, t1: int, t2: int)
    requires Inv(s) && s.mode == Running && s.clock <= t1 <= t2
    ensures Balanced(s, GetCpuTime(s, t1, t2))
  {
    CurrentLives(s.k);
    ChargedOnce(s, t1);
    hide Core, Charge;
    ChargeBalances(s, t1, t2, GetCpuTime(s, t1, t2));
  }

  lemma ClockBalances(s: State, t1: int, t2: int)
    requires Inv(s) && s.mode == Running && s.clock <= t1 <= t2
    ensures CLCKTIMER < |s.k.dev| && Balanced(s, WaitForClock(s, t1, t2))
  {
    DevLength(s);
    ClockStep(s, t1, t2);
    hide Inv, WaitDevice, WaitForClock;
    WaitBalances(s, CLCKTIMER, t1, t2);
  }

  // -------------------------------------------------------------------- runs

  /** `p` is live in every state of the run. */
  ghost predicate LivesThrough(s: State, xs: seq<Input>, p: Pcb)
    decreases |xs|
  {
    p in s.k.pcbs && p !in s.k.free &&
    (xs == [] || (|s.k.dev| == MAXSEMA && LivesThrough(Step(s, xs[0]), xs[1..], p)))
  }

  /** Charged intervals never overlap: what a run charges fits into the time that
      passed; and what one process is charged is part of that. */
  lemma {:induction false} RunBalances(s: State, xs: seq<Input>, t: State)
    requires Inv(s) && Run(s, xs, t) && (s.k.wash || CleanRun(s, xs))
    ensures 0 <= t.charged - s.charged <= Settled(t) - Settled(s)
    ensures s.time.Keys == s.vec.Keys == t.time.Keys == t.vec.Keys == s.k.pcbs == t.k.pcbs
    ensures forall p ::
      LivesThrough(s, xs, p) ==> p in s.time && p in t.time && 0 <= t.time[p] - s.time[p] <= t.charged - s.charged
    ensures forall p :: LivesThrough(s, xs, p) ==> p in s.vec && p in t.vec && Extends(s.vec[p], t.vec[p])
    decreases |xs|
  {
    hide Step, Enabled, Settled, Core, ModeOk;
    if xs == [] {
      assert forall p :: LivesThrough(s, xs, p) ==> p in s.k.pcbs;
    } else {
      if s.k.wash {
        RepairedIsClean(s, xs[0]);
      }
      StepKeeps(s, xs[0]);
      StepBalances(s, xs[0]);
      StepSameMachine(s, xs[0]);
      var m := Step(s, xs[0]);
      RunBalances(m, xs[1..], t);
      hide Inv, CleanRun;
      forall p | LivesThrough(s, xs, p)
        ensures p in s.time && p in t.time && 0 <= t.time[p] - s.time[p] <= t.charged - s.charged
        ensures p in s.vec && p in t.vec && Extends(s.vec[p], t.vec[p])
      {
        LivesOn(s, xs, p);
      }
    }
  }

  lemma LivesOn(s: State, xs: seq<Input>, p: Pcb)
    requires LivesThrough(s, xs, p) && xs != []
    ensures p in s.k.pcbs && p !in s.k.free && |s.k.dev| == MAXSEMA
    ensures LivesThrough(Step(s, xs[0]), xs[1..], p) && p !in Step(s, xs[0]).k.free
  {
    hide Step;
  }

  /** All the time ever charged fits into the time since the boot. */
  lemma ChargedSinceBoot(table: seq<Pcb>, base: nat, wash: bool, words: map<nat, int>, t0: int, xs: seq<Input>,
    t: State)
    requires Reached(table, base, wash, words, t0, xs, t)
    ensures 0 <= t.charged <= t.clock
  {
    var s := Booted(table, base, wash, words, t0);
    BootedInv(table, base, wash, words, t0);
    assert s.charged == 0;
    hide NoDup, Inv, CleanRun, Run, Booted;
    ReachedInv(table, base, wash, words, t0, xs, t);
    RunBalances(s, xs, t);
    SettledByClock(s);
    SettledByClock(t);
  }

  lemma SettledByClock(s: State)
    requires Inv(s)
    ensures s.charged <= s.clock && Settled(s) <= s.clock
  {
    hide Core;
  }

  /** Two answers of SYS6 to one process differ by no more time than passed. */
  lemma TwoReadings(s: State, x: Input, xs: seq<Input>, u: State, y: Input, p: Pcb)
    requires Inv(s) && |s.k.dev| == MAXSEMA && Enabled(s, x) && x.e == CpuTime && s.k.cur == p
    requires Run(Step(s, x), xs, u) && LivesThrough(Step(s, x), xs, p) && (s.k.wash || CleanRun(Step(s, x), xs))
    requires |u.k.dev| == MAXSEMA && Enabled(u, y) && y.e == CpuTime && u.k.cur == p
    ensures p in Step(s, x).time && p in Step(u, y).time
    ensures 0 <= Step(u, y).time[p] - Step(s, x).time[p] <= y.t1 - x.t1
  {
    var m := Step(s, x);
    CpuTimeStep(s, x.t1, x.t2);
    RunBalances(m, xs, u);
    RunKeeps(m, xs, u);
    CurrentLives(s.k);
    CurrentLives(u.k);
    ChargedOnce(s, x.t1);
    ChargedOnce(u, y.t1);
    assert u.startTOD <= u.clock by { hide Core; }
    hide Inv, Run, LivesThrough, CleanRun, Charge;
  }

  /** SYS5 is fatal exactly when none of the areas it would try is still unset;
      otherwise it sets one, the first of them, and leaves the others. */
  lemma SesvFatalIff(s: State, first: int, o: nat, n: nat, t: int)
    requires Inv(s) && s.mode == Running && s.clock <= t && s.k.cur != null && s.k.cur in s.vec
    ensures s.k.cur in Sesv(s, first, o, n, t).k.free <==> AllSetFrom(s.vec[s.k.cur], first)
    ensures !AllSetFrom(s.vec[s.k.cur], first) ==>
      var v, w := s.vec[s.k.cur], SetVectors(s.vec[s.k.cur], first, o, n);
      && Sesv(s, first, o, n, t).vec == s.vec[s.k.cur := w] && Extends(v, w) && (w == v ==> o == NULL)
  {
    CurrentLives(s.k);
    if AllSetFrom(s.vec[s.k.cur], first) {
      var family := Nucleus.Family(s.k);
      NukeKeeps(s.k);
      FreedFamily(s.k, Nuke(s.k), family);
      assert s.k.cur in family;
      hide Core, Nuke, Nucleus.Family, GetNewJob, Removed, Wiped;
      DispatchSheets(Wiped(s, family).(k := Nuke(s.k)), t);
    } else {
      hide Core;
    }
  }
}
