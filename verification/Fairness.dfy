/** No starvation: a process in the ready queue runs, or is killed, within as many
    dispatches as there are processes ahead of it, plus one. */
module Fairness {
  import opened Sequences
  import opened Pcbs
  import opened Nucleus
  import opened Invariant
  import opened Killing
  import opened Safety
  import KernelFacts

  /** How many stand ahead of `p`. */
  ghost function Ahead(q: seq<Pcb>, p: Pcb): nat
    requires p in q
  {
    if q[0] == p then 0 else 1 + Ahead(q[1..], p)
  }

  lemma {:induction false} AheadAppend(q: seq<Pcb>, more: seq<Pcb>, p: Pcb)
    requires p in q
    ensures p in q + more && Ahead(q + more, p) == Ahead(q, p)
  {
    if q[0] != p {
      AheadAppend(q[1..], more, p);
      assert (q + more)[1..] == q[1..] + more;
    }
  }

  /** Deleting others brings nobody further back. */
  lemma {:induction false} AheadWithout(q: seq<Pcb>, gone: set<Pcb>, p: Pcb)
    requires p in q && p !in gone
    ensures p in Without(q, gone) && Ahead(Without(q, gone), p) <= Ahead(q, p)
  {
    if q[0] != p {
      AheadWithout(q[1..], gone, p);
      var rest := Without(q[1..], gone);
      if q[0] !in gone {
        assert Without(q, gone) == [q[0]] + rest;
        assert ([q[0]] + rest)[1..] == rest;
      } else {
        assert Without(q, gone) == rest;
      }
    }
  }

  /** What a step does for `p`, waiting in the ready queue: it keeps its place or
      gains one for each dispatch, or it runs, or it is freed. */
  ghost predicate Advances(s: State, t: State, p: Pcb) {
    && s.dispatches <= t.dispatches
    && (p in s.k.ready ==>
          || (p in t.k.ready && Ahead(t.k.ready, p) + (t.dispatches - s.dispatches) <= Ahead(s.k.ready, p))
          || (t.k.cur == p && t.dispatches == s.dispatches + 1)
          || p in t.k.free)
  }

  /** `m` is `s` with the ready queue lengthened, and nobody dispatched. */
  ghost predicate Lengthened(s: State, m: State) {
    m.dispatches == s.dispatches && s.k.ready <= m.k.ready
  }

  lemma DispatchAdvances(s: State, t: int, p: Pcb)
    ensures Advances(s, GetNewJob(s, t), p)
  {
  }

  lemma LengthenedThen(s: State, m: State, r: State, p: Pcb)
    requires Lengthened(s, m) && Advances(m, r, p)
    ensures Advances(s, r, p)
  {
    if p in s.k.ready {
      var more := m.k.ready[|s.k.ready|..];
      assert m.k.ready == s.k.ready + more;
      AheadAppend(s.k.ready, more, p);
    }
  }

  lemma ReturnAdvances(s: State, t: int, p: Pcb)
    ensures Advances(s, ReturnFromInterrupt(s, t), p)
  {
    hide GetNewJob;
    DispatchAdvances(s, t, p);
  }

  lemma DieAdvances(s: State, t: int, p: Pcb)
    requires Inv(s) && s.mode == Running && s.clock <= t
    ensures Advances(s, Die(s, t), p)
  {
    hide Core, Nuke, Nucleus.Family, GetNewJob, Wiped, Without;
    var family := Nucleus.Family(s.k);
    var m := Wiped(s, family).(k := Nuke(s.k));
    NukeKeeps(s.k);
    assert m.dispatches == s.dispatches by { WipedDispatches(s, family); }
    DispatchAdvances(m, t, p);
    hide Advances;
    if p in s.k.ready && p !in family {
      AheadWithout(s.k.ready, Elements(family), p);
    }
    KilledOrBehind(s, m, Die(s, t), family, p, t);
  }

  lemma WipedDispatches(s: State, family: seq<Pcb>)
    ensures Wiped(s, family).dispatches == s.dispatches
  {
  }

  lemma KilledOrBehind(s: State, m: State, r: State, family: seq<Pcb>, p: Pcb, t: int)
    requires Removed(s.k, m.k, family) && m.dispatches == s.dispatches && r == GetNewJob(m, t)
    requires Advances(m, r, p)
    requires p in s.k.ready && p !in family ==> p in m.k.ready && Ahead(m.k.ready, p) <= Ahead(s.k.ready, p)
    ensures Advances(s, r, p)
  {
    hide Unqueued, Repaid, Ahead, GetNewJob;
    DispatchFree(m, t);
  }

  lemma DispatchFree(s: State, t: int)
    ensures GetNewJob(s, t).k.free == s.k.free && s.dispatches <= GetNewJob(s, t).dispatches <= s.dispatches + 1
  {
  }

  lemma ReadyGrows(k: Kern, a: nat)
    ensures BlockCur(k, a).ready == k.ready
    ensures Queue(k, a) != [] ==> k.ready <= Wake(k, a).ready
    ensures k.ready <= Tick(k).ready && k.ready <= Preempt(k).ready
  {
  }

  lemma Unmoved(s: State, m: State)
    requires m.dispatches == s.dispatches && m.k.ready == s.k.ready
    ensures Lengthened(s, m)
  {
  }

  lemma ChargeDispatches(s: State, t: int)
    ensures Charge(s, t).dispatches == s.dispatches && Charge(s, t).k == s.k
  {
  }

  lemma PasserenAdvances(s: State, a: nat, t1: int, t2: int, p: Pcb)
    ensures Advances(s, Passeren(s, a, t1, t2), p)
  {
    hide BlockCur, Charge, GetNewJob;
    var k := AddWord(s.k, a, -1);
    ChargeDispatches(s, t1);
    ReadyGrows(k, a);
    var m := Charge(s, t1).(k := BlockCur(k, a));
    Unmoved(s, m);
    DispatchAdvances(m, t2, p);
    LengthenedThen(s, m, GetNewJob(m, t2), p);
  }

  lemma WaitAdvances(s: State, i: nat, t1: int, t2: int, p: Pcb)
    requires i < |s.k.dev|
    ensures Advances(s, WaitDevice(s, i, t1, t2), p)
  {
    hide BlockCur, Charge, GetNewJob;
    KernelFacts.WaitDeviceIs(s, i, t1, t2);
    var k := AddDev(s.k, i, -1);
    ChargeDispatches(s, t1);
    ReadyGrows(k, DevAddr(k, i));
    var m := Charge(s, t1).(k := BlockCur(k, DevAddr(k, i)).(softBlock := k.softBlock + 1));
    Unmoved(s, m);
    DispatchAdvances(m, t2, p);
    LengthenedThen(s, m, GetNewJob(m, t2), p);
  }

  lemma TimerAdvances(s: State, t1: int, t2: int, p: Pcb)
    requires CLCKTIMER < |s.k.dev|
    ensures Advances(s, TimerInterrupt(s, t1, t2), p)
  {
    hide Charge, GetNewJob, ReturnFromInterrupt, Tick, Preempt, Advances;
    var c := Charge(s, t1);
    ChargeDispatches(s, t1);
    ReadyGrows(c.k, 0);
    if c.timerFlag || c.timeLeft < 0 {
      var m := c.(k := Tick(c.k).(dev := c.k.dev[CLCKTIMER := 0]), timer := QUANTUM, timeLeft := INTERVALTIME,
        timerFlag := false);
      ReturnAdvances(m, t2, p);
      LengthenedThen(s, m, ReturnFromInterrupt(m, t2), p);
    } else {
      var m := c.(k := Preempt(c.k), timer := QUANTUM);
      DispatchAdvances(m, t2, p);
      LengthenedThen(s, m, GetNewJob(m, t2), p);
    }
  }

  lemma DeviceAdvances(s: State, i: nat, t1: int, t2: int, p: Pcb)
    requires i < |s.k.dev|
    ensures Advances(s, DeviceInterrupt(s, i, t1, t2), p)
  {
    hide Charge, GetNewJob, ReturnFromInterrupt, Wake, Advances;
    KernelFacts.DeviceInterruptIs(s, i, t1, t2);
    hide DeviceInterrupt;
    ChargeDispatches(s, t1);
    var k := AddDev(s.k, i, 1);
    ReadyGrows(k, DevAddr(k, i));
    var m := Charge(s, t1).(k := if s.k.dev[i] + 1 <= 0 then KernelFacts.SignalDevice(k, i) else k);
    if m.k.ready == k.ready {
      Unmoved(s, m);
    }
    ReturnAdvances(m, t2, p);
    LengthenedThen(s, m, ReturnFromInterrupt(m, t2), p);
  }

  lemma GrowsAdvances(s: State, m: State, p: Pcb)
    requires Lengthened(s, m)
    ensures Advances(s, m, p)
  {
    if p in m.k.ready {
      assert Ahead(m.k.ready, p) >= 0;
    }
    LengthenedThen(s, m, m, p);
  }

  lemma StepAdvances(s: State, x: Input, p: Pcb)
    requires Inv(s) && |s.k.dev| == MAXSEMA && Enabled(s, x)
    ensures Advances(s, Step(s, x), p)
  {
    hide Inv, Advances, Die, Passeren, WaitDevice, TimerInterrupt, DeviceInterrupt, Lengthened;
    match x.e
    case Create => CreateAdvances(s, p);
    case Terminate => DieAdvances(s, x.t2, p);
    case V(a) => VerhogenAdvances(s, a, p);
    case P(a) => PasserenAdvances(s, a, x.t1, x.t2, p);
    case SetTrap(first, o, n) => DieAdvances(s, x.t2, p); QuietAdvances(s, Step(s, x), p);
    case CpuTime => ChargeDispatches(s, x.t1); QuietAdvances(s, Step(s, x), p);
    case Clock => ClockAdvances(s, x.t1, x.t2, p);
    case IO(l, d, read) => WaitAdvances(s, DeviceIndex(l, d, !read), x.t1, x.t2, p);
    case Trapped(trap) => DieAdvances(s, x.t2, p); QuietAdvances(s, Step(s, x), p);
    case Timer => TimerAdvances(s, x.t1, x.t2, p);
    case Device(i) => DeviceAdvances(s, i, x.t1, x.t2, p);
    case Store(a, v) => QuietAdvances(s, Step(s, x), p);
  }

  lemma QuietAdvances(s: State, r: State, p: Pcb)
    ensures r.dispatches == s.dispatches && r.k.ready == s.k.ready ==> Advances(s, r, p)
  {
  }

  lemma ClockAdvances(s: State, t1: int, t2: int, p: Pcb)
    requires |s.k.dev| == MAXSEMA
    ensures Advances(s, WaitForClock(s, t1, t2), p)
  {
    hide WaitDevice;
    WaitAdvances(s, CLCKTIMER, t1, t2, p);
  }

  lemma CreateAdvances(s: State, p: Pcb)
    ensures Advances(s, CreateProcess(s), p)
  {
    hide Wiped;
    if s.k.free == [] || s.k.cur == null {
      QuietAdvances(s, s, p);
    } else {
      WipedDispatches(s, [s.k.free[0]]);
      assert CreateProcess(s).k.ready == s.k.ready + [s.k.free[0]];
      GrowsAdvances(s, CreateProcess(s), p);
    }
  }

  lemma VerhogenAdvances(s: State, a: nat, p: Pcb)
    ensures Advances(s, Verhogen(s, a), p)
  {
    hide Wake, Advances;
    var k := AddWord(s.k, a, 1);
    ReadyGrows(k, a);
    if Word(k, a) > 0 || Queue(k, a) == [] {
      QuietAdvances(s, Verhogen(s, a), p);
    } else {
      GrowsAdvances(s, Verhogen(s, a), p);
    }
  }

  /** A process with `n` others ahead of it is running, or has been killed, by the
      time `n + 1` jobs have been dispatched. */
  lemma {:induction false} NoStarvation(s: State, xs: seq<Input>, t: State, p: Pcb) returns (i: nat, u: State)
    requires Inv(s) && Run(s, xs, t) && (s.k.wash || CleanRun(s, xs))
    requires p in s.k.ready && t.dispatches - s.dispatches > Ahead(s.k.ready, p)
    ensures i <= |xs| && Run(s, xs[..i], u) && (u.k.cur == p || p in u.k.free)
    decreases |xs|
  {
    hide Step, Enabled, Inv, Ahead;
    if s.k.wash {
      RepairedIsClean(s, xs[0]);
    }
    var m := Step(s, xs[0]);
    StepKeeps(s, xs[0]);
    StepAdvances(s, xs[0], p);
    StepSameMachine(s, xs[0]);
    if p in m.k.ready && Ahead(m.k.ready, p) + (m.dispatches - s.dispatches) <= Ahead(s.k.ready, p) {
      var j;
      j, u := NoStarvation(m, xs[1..], t, p);
      i := j + 1;
      assert xs[..i][1..] == xs[1..][..j] && xs[..i][0] == xs[0];
    } else {
      i, u := 1, m;
      assert xs[..1] == [xs[0]] && xs[..1][1..] == [];
    }
  }

  /** At every moment since the boot, whoever runs has at most a quantum before
      the timer stops it. */
  lemma QuantumBounds(table: seq<Pcb>, base: nat, wash: bool, words: map<nat, int>, t0: int, xs: seq<Input>, s: State)
    requires Reached(table, base, wash, words, t0, xs, s) && s.mode == Running
    ensures 0 <= s.timer <= QUANTUM
  {
    ReachedInv(table, base, wash, words, t0, xs, s);
    hide Core, Sheets, Reached;
  }
}
