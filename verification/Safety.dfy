/** Every step of the nucleus, and so every run, keeps the invariant. */
module Safety {
  import opened Sequences
  import opened Pcbs
  import opened Nucleus
  import opened Invariant
  import opened Killing

  /** A process creation that is handed a block with no old semaphore address.
      With the repaired free list every creation is; as shipped, a creation that
      reuses a block freed while it was blocked is not. */
  ghost predicate CleanSpawn(s: State, x: Input) {
    x.e.Create? && s.k.free != [] ==> Tag(s.k, s.k.free[0]) == NULL
  }

  lemma RepairedIsClean(s: State, x: Input)
    requires Inv(s) && s.k.wash
    ensures CleanSpawn(s, x)
  {
    if x.e.Create? && s.k.free != [] {
      assert s.k.free[0] in s.k.free;
    }
  }

  // ------------------------------------------------------- time and the sheets

  /** All that `Sheets` says, without asking who is current. */
  ghost predicate Ledger(s: State, upTo: int) {
    && s.vec.Keys == s.k.pcbs && s.time.Keys == s.k.pcbs
    && (forall p :: p in s.time ==> s.time[p] >= 0)
    && s.startTOD <= s.clock && s.charged <= upTo
  }

  lemma ChargeSheets(s: State, t: int)
    requires Sheets(s) && s.k.cur != null && Live(s.k, s.k.cur) && s.clock <= t
    ensures Ledger(Charge(s, t), t) && Charge(s, t).clock == t && Charge(s, t).k == s.k
  {
    assert s.k.cur in s.time;
    assert Charge(s, t).time.Keys == s.time.Keys;
  }

  lemma GetNewJobSheets(s: State, t: int)
    requires Ledger(s, s.clock) && s.clock <= t
    ensures Sheets(GetNewJob(s, t))
  {
  }

  lemma WipedSheets(s: State, family: seq<Pcb>)
    ensures var w := Wiped(s, family); w == s.(vec := w.vec, time := w.time)
    ensures Wiped(s, family).vec.Keys == s.vec.Keys && Wiped(s, family).time.Keys == s.time.Keys
    ensures forall p :: p in s.time ==> Wiped(s, family).time[p] == if p in family then 0 else s.time[p]
  {
  }

  // ------------------------------------------------------------------- calls

  lemma DieKeeps(s: State, t: int)
    requires Inv(s) && s.mode == Running && s.clock <= t
    ensures Inv(Die(s, t))
  {
    hide Core, Nuke, Nucleus.Family, Wiped;
    NukeKeeps(s.k);
    var m := Wiped(s, Nucleus.Family(s.k)).(k := Nuke(s.k));
    assert m.k.(cur := null) == m.k;
    GetNewJobKeeps(m, t);
    WipedSheets(s, Nucleus.Family(s.k));
    DieSheets(s, t);
  }

  lemma DieSheets(s: State, t: int)
    requires Sheets(s) && s.k.cur != null && s.clock <= t && Nuke(s.k).pcbs == s.k.pcbs
    ensures Sheets(Die(s, t))
  {
    hide Nuke, Nucleus.Family;
    WipedSheets(s, Nucleus.Family(s.k));
    GetNewJobSheets(Wiped(s, Nucleus.Family(s.k)).(k := Nuke(s.k)), t);
  }

  lemma CreateKeeps(s: State)
    requires Inv(s) && s.mode == Running && (s.k.free != [] ==> Tag(s.k, s.k.free[0]) == NULL)
    ensures Inv(CreateProcess(s))
  {
    hide Core, Wiped;
    if s.k.free != [] {
      SpawnKeeps(s.k);
      WipedSheets(s, [s.k.free[0]]);
    }
  }

  lemma QueueLength(k: Kern, a: nat)
    requires Core(k) && Ordinary(k, a)
    ensures |Queue(k, a)| == Max0(-Word(k, a))
  {
  }

  lemma VerhogenStep(s: State, a: nat)
    requires Inv(s) && s.mode == Running && Ordinary(s.k, a)
    ensures Inv(Verhogen(s, a))
    ensures Word(s.k, a) < 0 ==> Queue(s.k, a) != []
  {
    hide Core, Wake;
    QueueLength(s.k, a);
    var k := AddWord(s.k, a, 1);
    if Word(k, a) > 0 {
      WordKeeps(s.k, a, Word(s.k, a) + 1);
    } else {
      VerhogenKeeps(s.k, a);
      WakeFields(k, a);
    }
  }

  lemma WakeFields(k: Kern, a: nat)
    requires Queue(k, a) != []
    ensures Wake(k, a).cur == k.cur && Wake(k, a).pcbs == k.pcbs && Wake(k, a).ready != []
    ensures Wake(k, a).softBlock == k.softBlock
  {
  }

  lemma PasserenStep(s: State, a: nat, t1: int, t2: int)
    requires Inv(s) && s.mode == Running && Ordinary(s.k, a) && s.clock <= t1 <= t2
    ensures Inv(Passeren(s, a, t1, t2))
  {
    hide Core, BlockCur;
    QueueLength(s.k, a);
    CurrentLives(s.k);
    var k := AddWord(s.k, a, -1);
    if Word(k, a) < 0 {
      PassKeeps(s.k, a);
      ChargeSheets(s, t1);
      BlockFields(k, a);
      var c := Charge(s, t1).(k := BlockCur(k, a));
      assert c.k.(cur := null) == c.k;
      GetNewJobKeeps(c, t2);
      GetNewJobSheets(c, t2);
    } else {
      WordKeeps(s.k, a, Word(s.k, a) - 1);
    }
  }

  lemma BlockFields(k: Kern, a: nat)
    ensures BlockCur(k, a).cur == null && BlockCur(k, a).pcbs == k.pcbs && BlockCur(k, a).softBlock == k.softBlock
  {
  }

  lemma SesvStep(s: State, first: int, o: nat, n: nat, t: int)
    requires Inv(s) && s.mode == Running && s.clock <= t
    ensures Inv(Sesv(s, first, o, n, t))
  {
    DieKeeps(s, t);
    if s.k.cur != null && s.k.cur in s.vec {
      NewVectors(s, s.k.cur, SetVectors(s.vec[s.k.cur], first, o, n));
    }
    hide Inv, Die, AllSetFrom, SetVectors;
  }

  lemma NewVectors(s: State, c: Pcb, w: Vectors)
    requires Inv(s) && c in s.vec
    ensures Inv(s.(vec := s.vec[c := w]))
  {
    hide Core, ModeOk;
    assert s.vec[c := w].Keys == s.vec.Keys;
    ModeOnly(s, s.vec[c := w]);
  }

  lemma ModeOnly(s: State, vec: map<Pcb, Vectors>)
    ensures ModeOk(s.(vec := vec)) <==> ModeOk(s)
  {
  }

  lemma CpuTimeStep(s: State, t1: int, t2: int)
    requires Inv(s) && s.mode == Running && s.clock <= t1 <= t2
    ensures Inv(GetCpuTime(s, t1, t2))
  {
    CurrentLives(s.k);
    hide Core;
    ChargeSheets(s, t1);
  }

  lemma WaitDeviceStep(s: State, i: nat, t1: int, t2: int)
    requires Inv(s) && s.mode == Running && |s.k.dev| == MAXSEMA && i < MAXSEMA && s.clock <= t1 <= t2
    requires i == CLCKTIMER ==> s.k.dev[i] - 1 < 0
    ensures Inv(WaitDevice(s, i, t1, t2))
  {
    hide Core;
    if s.k.dev[i] - 1 < 0 {
      WaitDeviceBlocks(s, i, t1, t2);
    } else {
      PassDeviceKeeps(s.k, i);
    }
  }

  lemma WaitDeviceBlocks(s: State, i: nat, t1: int, t2: int)
    requires Inv(s) && s.mode == Running && i < MAXSEMA && s.clock <= t1 <= t2
    requires |s.k.dev| == MAXSEMA && s.k.dev[i] - 1 < 0
    ensures Inv(WaitDevice(s, i, t1, t2))
  {
    hide Core, BlockCur, Charge;
    CurrentLives(s.k);
    WaitDeviceKeeps(s.k, i);
    ChargeSheets(s, t1);
    var k := AddDev(s.k, i, -1);
    BlockFields(k, DevAddr(k, i));
    var b := BlockCur(k, DevAddr(k, i));
    var c := Charge(s, t1).(k := b.(softBlock := b.softBlock + 1));
    assert c.k.(cur := null) == c.k;
    GetNewJobKeeps(c, t2);
    GetNewJobSheets(c, t2);
    hide GetNewJob;
  }

  /** SYS7 always blocks: its PANIC is never reached. */
  lemma ClockStep(s: State, t1: int, t2: int)
    requires Inv(s) && s.mode == Running && s.clock <= t1 <= t2
    ensures Inv(WaitForClock(s, t1, t2))
    ensures WaitForClock(s, t1, t2) == WaitDevice(s, CLCKTIMER, t1, t2)
  {
    assert s.k.dev[CLCKTIMER] <= 0;
    hide Core, WaitDevice;
    WaitDeviceStep(s, CLCKTIMER, t1, t2);
  }

  lemma TrappedStep(s: State, trap: Trap, t: int)
    requires Inv(s) && s.mode == Running && s.clock <= t
    ensures Inv(PassUpOrDie(s, trap, t))
  {
    hide Core, Die;
    DieKeeps(s, t);
  }

  // -------------------------------------------------------------- interrupts

  lemma EnterInterrupt(s: State, t: int)
    requires Inv(s) && (s.mode == Running || s.mode == Waiting) && s.clock <= t
    ensures var c := Charge(s, t);
      && c.k == s.k && c.mode == s.mode && c.timer == s.timer && c.clock <= t && Ledger(c, c.clock)
  {
    if s.k.cur != null {
      CurrentLives(s.k);
      ChargeSheets(s, t);
    }
    hide Core;
  }

  lemma ReturnKeeps(s: State, t: int)
    requires Core(s.k) && Ledger(s, s.clock) && s.clock <= t
    requires s.k.cur != null ==> s.mode == Running && 0 <= s.timer <= QUANTUM
    ensures Inv(ReturnFromInterrupt(s, t))
  {
    hide Core, GetNewJob;
    if s.k.cur == null {
      assert s.k.(cur := null) == s.k;
      GetNewJobKeeps(s, t);
      GetNewJobSheets(s, t);
    }
  }

  lemma TimerStep(s: State, t1: int, t2: int)
    requires Inv(s) && (s.mode == Running || s.mode == Waiting) && |s.k.dev| == MAXSEMA && s.clock <= t1 <= t2
    ensures Inv(TimerInterrupt(s, t1, t2))
  {
    hide Core, GetNewJob, ReturnFromInterrupt, Charge;
    EnterInterrupt(s, t1);
    var c := Charge(s, t1);
    if c.timerFlag || c.timeLeft < 0 {
      TickKeeps(s.k);
      ReturnKeeps(c.(k := Tick(c.k).(dev := c.k.dev[CLCKTIMER := 0]), timer := QUANTUM,
                     timeLeft := INTERVALTIME, timerFlag := false), t2);
    } else {
      PreemptKeeps(s.k);
      var d := c.(k := Preempt(c.k), timer := QUANTUM);
      assert d.k.(cur := null) == d.k;
      GetNewJobKeeps(d, t2);
      GetNewJobSheets(d, t2);
    }
  }

  lemma DeviceStep(s: State, i: nat, t1: int, t2: int)
    requires Inv(s) && (s.mode == Running || s.mode == Waiting) && |s.k.dev| == MAXSEMA && i < CLCKTIMER &&
      s.clock <= t1 <= t2
    ensures Inv(DeviceInterrupt(s, i, t1, t2))
  {
    hide Core, GetNewJob, ReturnFromInterrupt, Charge, Wake;
    EnterInterrupt(s, t1);
    var c := Charge(s, t1);
    var k := AddDev(s.k, i, 1);
    if k.dev[i] <= 0 && Queue(k, DevAddr(k, i)) != [] {
      SignalDeviceKeeps(s.k, i);
      WakeFields(k, DevAddr(k, i));
      ReturnKeeps(c.(k := Wake(k, DevAddr(k, i)).(softBlock := k.softBlock - 1)), t2);
    } else {
      IdleDeviceKeeps(s.k, i);
      ReturnKeeps(c.(k := k), t2);
    }
  }

  // -------------------------------------------------------------------- runs

  lemma DevLength(s: State)
    requires Inv(s)
    ensures |s.k.dev| == MAXSEMA
  {
  }

  /** One step, whatever it is. */
  lemma StepKeeps(s: State, x: Input)
    requires Inv(s) && |s.k.dev| == MAXSEMA && Enabled(s, x) && CleanSpawn(s, x)
    ensures Inv(Step(s, x))
  {
    match x.e
    case Create => CreateKeeps(s);
    case Terminate => DieKeeps(s, x.t2);
    case V(a) => VerhogenStep(s, a);
    case P(a) => PasserenStep(s, a, x.t1, x.t2);
    case SetTrap(first, o, n) => SesvStep(s, first, o, n, x.t2);
    case CpuTime => CpuTimeStep(s, x.t1, x.t2);
    case Clock => ClockStep(s, x.t1, x.t2);
    case IO(l, d, read) => WaitDeviceStep(s, DeviceIndex(l, d, !read), x.t1, x.t2);
    case Trapped(trap) => TrappedStep(s, trap, x.t2);
    case Timer => TimerStep(s, x.t1, x.t2);
    case Device(i) => DeviceStep(s, i, x.t1, x.t2);
    case Store(a, v) => StoreStep(s, a, v);
  }

  lemma StoreStep(s: State, a: nat, v: int)
    requires Inv(s) && Ordinary(s.k, a) && Queue(s.k, a) == [] && v >= 0
    ensures Inv(s.(k := s.k.(words := s.k.words[a := v])))
  {
    hide Core;
    WordKeeps(s.k, a, v);
  }

  /** No step of the run hands out a block that still carries a semaphore address. */
  ghost predicate CleanRun(s: State, xs: seq<Input>)
    decreases |xs|
  {
    xs == [] || (|s.k.dev| == MAXSEMA && CleanSpawn(s, xs[0]) && CleanRun(Step(s, xs[0]), xs[1..]))
  }

  ghost predicate SameMachine(k: Kern, r: Kern) {
    r.pcbs == k.pcbs && r.base == k.base && r.wash == k.wash
  }

  lemma MachineOf(k: Kern, m: Kern, r: Kern)
    ensures SameMachine(k, k) && (SameMachine(k, m) && SameMachine(m, r) ==> SameMachine(k, r))
  {
  }

  lemma KillOneSameMachine(k: Kern, p: Pcb)
    ensures SameMachine(k, KillOne(k, p))
  {
    hide Without, Asl.Requeue, IsDev, Word;
  }

  lemma {:induction false} KillAllSameMachine(k: Kern, family: seq<Pcb>)
    ensures SameMachine(k, KillAll(k, family))
    decreases |family|
  {
    hide Nucleus.KillOne, SameMachine;
    if family == [] {
      MachineOf(k, k, k);
    } else {
      var init, p := family[..|family| - 1], family[|family| - 1];
      KillAllSameMachine(k, init);
      KillOneSameMachine(KillAll(k, init), p);
      MachineOf(k, KillAll(k, init), KillAll(k, family));
    }
  }

  lemma NukeSameMachine(k: Kern)
    ensures SameMachine(k, Nuke(k))
  {
    hide KillAll, Nucleus.Family;
    KillAllSameMachine(k, Nucleus.Family(k));
  }

  lemma BlockSameMachine(k: Kern, a: nat)
    ensures SameMachine(k, BlockCur(k, a))
  {
  }

  lemma GetNewJobSameMachine(s: State, t: int)
    ensures SameMachine(s.k, GetNewJob(s, t).k)
  {
  }

  lemma DieSameMachine(s: State, t: int)
    ensures SameMachine(s.k, Die(s, t).k)
  {
    hide Nuke, GetNewJob, Nucleus.Family;
    NukeSameMachine(s.k);
    GetNewJobSameMachine(Wiped(s, Nucleus.Family(s.k)).(k := Nuke(s.k)), t);
  }

  lemma WaitDeviceSameMachine(s: State, i: nat, t1: int, t2: int)
    requires i < |s.k.dev|
    ensures SameMachine(s.k, WaitDevice(s, i, t1, t2).k)
  {
    hide GetNewJob, BlockCur, Charge;
    var k := AddDev(s.k, i, -1);
    BlockSameMachine(k, DevAddr(k, i));
    GetNewJobSameMachine(Charge(s, t1).(k := BlockCur(k, DevAddr(k, i)).(softBlock := k.softBlock + 1)), t2);
  }

  lemma PasserenSameMachine(s: State, a: nat, t1: int, t2: int)
    ensures SameMachine(s.k, Passeren(s, a, t1, t2).k)
  {
    hide GetNewJob, BlockCur, Charge;
    var k := AddWord(s.k, a, -1);
    BlockSameMachine(k, a);
    GetNewJobSameMachine(Charge(s, t1).(k := BlockCur(k, a)), t2);
  }

  lemma ReturnSameMachine(s: State, t: int)
    ensures SameMachine(s.k, ReturnFromInterrupt(s, t).k)
  {
    hide GetNewJob;
    GetNewJobSameMachine(s, t);
  }

  lemma TimerSameMachine(s: State, t1: int, t2: int)
    requires CLCKTIMER < |s.k.dev|
    ensures SameMachine(s.k, TimerInterrupt(s, t1, t2).k)
  {
    hide GetNewJob, ReturnFromInterrupt;
    var c := Charge(s, t1);
    ReturnSameMachine(c.(k := Tick(c.k).(dev := c.k.dev[CLCKTIMER := 0]), timer := QUANTUM,
                         timeLeft := INTERVALTIME, timerFlag := false), t2);
    GetNewJobSameMachine(c.(k := Preempt(c.k), timer := QUANTUM), t2);
  }

  lemma DeviceSameMachine(s: State, i: nat, t1: int, t2: int)
    requires i < |s.k.dev|
    ensures SameMachine(s.k, DeviceInterrupt(s, i, t1, t2).k)
  {
    hide GetNewJob, ReturnFromInterrupt, Charge;
    var c := Charge(s, t1);
    ChargeSameKern(s, t1);
    var k := AddDev(c.k, i, 1);
    if k.dev[i] <= 0 && Queue(k, DevAddr(k, i)) != [] {
      ReturnSameMachine(c.(k := Wake(k, DevAddr(k, i)).(softBlock := k.softBlock - 1)), t2);
    } else {
      ReturnSameMachine(c.(k := k), t2);
    }
  }

  lemma ChargeSameKern(s: State, t: int)
    ensures Charge(s, t).k == s.k
  {
  }

  /** No step changes the process table, the device addresses or the repair. */
  lemma StepSameMachine(s: State, x: Input)
    requires |s.k.dev| == MAXSEMA
    ensures SameMachine(s.k, Step(s, x).k)
  {
    hide Die, WaitDevice, Passeren, TimerInterrupt, DeviceInterrupt;
    match x.e
    case Create =>
    case Terminate => DieSameMachine(s, x.t2);
    case V(a) =>
    case P(a) => PasserenSameMachine(s, a, x.t1, x.t2);
    case SetTrap(first, o, n) => DieSameMachine(s, x.t2);
    case CpuTime =>
    case Clock => WaitDeviceSameMachine(s, CLCKTIMER, x.t1, x.t2);
    case IO(l, d, read) =>
      if DISKINT <= l && DeviceIndex(l, d, !read) < MAXSEMA {
        WaitDeviceSameMachine(s, DeviceIndex(l, d, !read), x.t1, x.t2);
      }
    case Trapped(trap) => DieSameMachine(s, x.t2);
    case Timer => TimerSameMachine(s, x.t1, x.t2);
    case Device(i) => if i < MAXSEMA { DeviceSameMachine(s, i, x.t1, x.t2); }
    case Store(a, v) =>
  }

  /** With the repaired free list every reachable state satisfies the invariant;
      as shipped, every state reached without reusing a stale block does. */
  lemma {:induction false} RunKeeps(s: State, xs: seq<Input>, t: State)
    requires Inv(s) && Run(s, xs, t) && (s.k.wash || CleanRun(s, xs))
    ensures Inv(t) && SameMachine(s.k, t.k)
    decreases |xs|
  {
    hide Inv, Step, Enabled;
    if xs != [] {
      if s.k.wash {
        RepairedIsClean(s, xs[0]);
      }
      StepKeeps(s, xs[0]);
      StepSameMachine(s, xs[0]);
      RunKeeps(Step(s, xs[0]), xs[1..], t);
    }
  }

  lemma InitialCore(table: seq<Pcb>, base: nat, wash: bool, words: map<nat, int>)
    requires table != [] && NoDup(table) && base > NULL
    requires forall a :: a in words ==> words[a] >= 0
    ensures Core(Initial(table, base, wash, words).k)
  {
    InitialPlaces(table, base, wash, words);
    InitialSemaphores(table, base, wash, words);
    InitialTree(table, base, wash, words);
    hide Places, Semaphores, OneTree, NoDup;
  }

  lemma InitialPlaces(table: seq<Pcb>, base: nat, wash: bool, words: map<nat, int>)
    requires table != [] && NoDup(table) && base > NULL
    ensures Places(Initial(table, base, wash, words).k)
  {
    var k := Initial(table, base, wash, words).k;
    NoDupCardinality(table);
    TailNoDup(table);
    EmptyNoDup<Pcb>();
    AppendNoDup([], table[0]);
    assert [] + [table[0]] == [table[0]];
    hide NoDup;
    assert forall b {:trigger Queue(k, b)} :: Queue(k, b) == [];
    assert forall p :: p in table ==> p == table[0] || p in table[1..];
    assert AslOk(k) by { hide FreeOk, ReadyOk, Placed; }
    hide AslOk, Queue;
    assert FreeOk(k) by { hide ReadyOk, Placed; }
    hide FreeOk;
    assert ReadyOk(k) by { hide Placed; }
    hide ReadyOk;
  }

  lemma InitialSemaphores(table: seq<Pcb>, base: nat, wash: bool, words: map<nat, int>)
    requires table != [] && forall a :: a in words ==> words[a] >= 0
    ensures base > NULL ==> Semaphores(Initial(table, base, wash, words).k)
  {
    var k := Initial(table, base, wash, words).k;
    assert forall b {:trigger Queue(k, b)} :: Queue(k, b) == [];
    assert base > NULL ==> SoftBlocked(k) == {};
    hide SoftBlocked;
  }

  lemma InitialTree(table: seq<Pcb>, base: nat, wash: bool, words: map<nat, int>)
    requires table != [] && NoDup(table)
    ensures OneTree(Initial(table, base, wash, words).k)
  {
    var k := Initial(table, base, wash, words).k;
    TailNoDup(table);
    assert forall p :: p in table ==> p == table[0] || p in table[1..];
    assert Post(Nil) == [] && Post(k.tree) == [table[0]];
    hide Post;
  }

  /** The state the boot sequence starts from satisfies the invariant. */
  lemma BootedInv(table: seq<Pcb>, base: nat, wash: bool, words: map<nat, int>, t: int)
    requires table != [] && NoDup(table) && base > NULL && t >= 0
    requires forall a :: a in words ==> words[a] >= 0
    ensures Inv(Booted(table, base, wash, words, t))
  {
    InitialCore(table, base, wash, words);
    hide Core;
    var s := Initial(table, base, wash, words);
    assert s.k.(cur := null) == s.k;
    GetNewJobKeeps(s, t);
    GetNewJobSheets(s, t);
  }

  /** A state some run reaches from the boot on. */
  ghost predicate Reached(table: seq<Pcb>, base: nat, wash: bool, words: map<nat, int>, t0: int, xs: seq<Input>,
    s: State) {
    && table != [] && NoDup(table) && base > NULL && t0 >= 0 && (forall a :: a in words ==> words[a] >= 0)
    && Run(Booted(table, base, wash, words, t0), xs, s)
    && (wash || CleanRun(Booted(table, base, wash, words, t0), xs))
  }

  lemma ReachedInv(table: seq<Pcb>, base: nat, wash: bool, words: map<nat, int>, t0: int, xs: seq<Input>, s: State)
    requires Reached(table, base, wash, words, t0, xs, s)
    ensures Inv(s) && s.k.pcbs == Elements(table)
  {
    hide Inv, Run, CleanRun, Booted;
    BootedInv(table, base, wash, words, t0);
    BootedMachine(table, base, wash, words, t0);
    RunKeeps(Booted(table, base, wash, words, t0), xs, s);
  }

  lemma BootedMachine(table: seq<Pcb>, base: nat, wash: bool, words: map<nat, int>, t0: int)
    requires table != []
    ensures var k := Booted(table, base, wash, words, t0).k; k.wash == wash && k.pcbs == Elements(table)
  {
    GetNewJobSameMachine(Initial(table, base, wash, words), t0);
    hide GetNewJob;
  }
}
