/** What the invariant means: one place per process, exact counters, failures
    that cannot happen, deadlock detection and the end of the root. */
module Theorems {
  import opened Sequences
  import opened Pcbs
  import opened Nucleus
  import opened Invariant
  import opened Killing
  import opened Trees
  import opened Safety

  // -------------------------------------------------------------- one place

  datatype Place = OnFreeList | OnReadyQueue | Current | WaitingOn(a: nat)

  /** All the places where process `p` can be found. */
  ghost function PlacesOf(k: Kern, p: Pcb): set<Place> {
    (if p in k.free then {OnFreeList} else {})
    + (if p in k.ready then {OnReadyQueue} else {})
    + (if p == k.cur then {Current} else {})
    + (set a | a in k.asl && p in k.asl[a] :: WaitingOn(a))
  }

  /** Each process block is in exactly one place. */
  lemma OnePlace(s: State, p: Pcb)
    requires Inv(s) && p in s.k.pcbs
    ensures |PlacesOf(s.k, p)| == 1
  {
    OnePlaceIn(s.k, p);
  }

  lemma OnePlaceIn(k: Kern, p: Pcb)
    requires Places(k) && p in k.pcbs
    ensures exists here :: PlacesOf(k, p) == {here}
  {
    hide NoDup, FreeOk;
    assert forall a :: a in k.asl && p in k.asl[a] ==> p in Queue(k, a);
    if p in k.free {
      assert PlacesOf(k, p) == {OnFreeList};
    } else if p == k.cur {
      assert PlacesOf(k, p) == {Current};
    } else if p in k.ready {
      assert PlacesOf(k, p) == {OnReadyQueue};
    } else {
      assert p in Queue(k, Tag(k, p));
      assert PlacesOf(k, p) == {WaitingOn(Tag(k, p))};
    }
  }

  /** `processCount` and `softBlockCount` count what they should. */
  lemma CountersExact(s: State)
    requires Inv(s)
    ensures s.k.procCount == |set p | p in s.k.pcbs && p !in s.k.free|
    ensures s.k.softBlock == |set p | p in s.k.pcbs && p !in s.k.free && IsDev(s.k, Tag(s.k, p))|
  {
    CountsAreNat(s.k);
    assert SoftBlocked(s.k) == set p | p in s.k.pcbs && p !in s.k.free && IsDev(s.k, Tag(s.k, p));
  }

  // --------------------------------------------------- what cannot go wrong

  /** A V on a negative semaphore has a process to wake; a blocking operation has
      a descriptor to block with; and SYS7 blocks. */
  lemma NoSurprises(s: State, a: nat)
    requires Inv(s) && s.mode == Running
    ensures Ordinary(s.k, a) && Word(s.k, a) < 0 ==> Queue(s.k, a) != []
    ensures |s.k.asl| < |s.k.pcbs|
    ensures |s.k.dev| == MAXSEMA && s.k.dev[CLCKTIMER] - 1 < 0
  {
    if Ordinary(s.k, a) {
      QueueLength(s.k, a);
    }
    RoomToBlock(s.k);
  }

  /** A shipped kernel goes on satisfying the invariant after a creation exactly
      when the block at the head of the free list carries no semaphore address. */
  lemma CreateIff(s: State)
    requires Inv(s) && s.mode == Running
    ensures Inv(CreateProcess(s)) <==> s.k.free == [] || Tag(s.k, s.k.free[0]) == NULL
  {
    if s.k.free == [] || Tag(s.k, s.k.free[0]) == NULL {
      CreateKeeps(s);
    } else {
      var r := CreateProcess(s);
      assert s.k.free[0] in r.k.ready;
      assert Tag(r.k, s.k.free[0]) != NULL;
    }
  }

  // --------------------------------------------------------------- deadlock

  ghost predicate IsInterrupt(x: Input) { x.e.Timer? || x.e.Device? }

  /** The scheduler, with nobody ready, ends in exactly one way, and which one
      depends on who is left. */
  lemma SchedulerVerdict(s: State, t: int)
    requires Core(s.k) && s.k.cur == null && s.k.ready == []
    ensures GetNewJob(s, t).mode == Halted <==> forall p :: p in s.k.pcbs ==> p in s.k.free
    ensures GetNewJob(s, t).mode == Panicked <==>
      (exists p :: p in s.k.pcbs && p !in s.k.free) &&
      (forall p :: p in s.k.pcbs && p !in s.k.free ==> Ordinary(s.k, Tag(s.k, p)))
    ensures GetNewJob(s, t).mode == Waiting <==> exists p :: p in s.k.pcbs && p !in s.k.free && IsDev(s.k, Tag(s.k, p))
  {
    var k := s.k;
    CountsAreNat(k);
    var live := set p | p in k.pcbs && p !in k.free;
    assert forall p :: p in live ==> Tag(k, p) != NULL;
    assert k.softBlock == |SoftBlocked(k)|;
    if k.softBlock > 0 {
      var p :| p in SoftBlocked(k);
      assert p in live;
    }
    if k.procCount > 0 {
      var p :| p in live;
    }
    assert forall p :: p in SoftBlocked(k) <==> p in live && IsDev(k, Tag(k, p));
    hide Places;
  }

  /** Nobody ready, nobody running, nobody waiting for a device or the clock. */
  ghost predicate Stuck(s: State) {
    s.k.cur == null && s.k.ready == [] && s.mode == Waiting && AslOk(s.k)
    && |s.k.dev| == MAXSEMA && s.k.procCount > 0 && s.k.softBlock == 0
    && forall i: nat {:trigger DevAddr(s.k, i)} :: i < MAXSEMA ==> Queue(s.k, DevAddr(s.k, i)) == []
  }

  /** An interrupt finds nobody to wake, so the scheduler would panic again. */
  lemma StuckStays(s: State, x: Input)
    requires Stuck(s) && IsInterrupt(x) && Enabled(s, x)
    ensures Step(s, x).mode == Panicked && Stuck(Step(s, x).(mode := Waiting))
  {
    StuckDev(s);
    hide Stuck;
    if x.e.Timer? {
      StuckTimer(s, x.t1, x.t2);
    } else {
      StuckDevice(s, x.e.i, x.t1, x.t2);
    }
  }

  lemma StuckFrame(s: State, r: State)
    requires Stuck(s) && r.mode == Waiting && |r.k.dev| == MAXSEMA
    requires r.k == s.k.(dev := r.k.dev, softBlock := 0)
    ensures Stuck(r)
  {
    hide NoDup;
    assert forall b {:trigger Queue(r.k, b)} :: Queue(r.k, b) == Queue(s.k, b);
    assert forall i: nat {:trigger DevAddr(r.k, i)} :: DevAddr(r.k, i) == DevAddr(s.k, i);
  }

  lemma StuckTimer(s: State, t1: int, t2: int)
    requires Stuck(s) && |s.k.dev| == MAXSEMA
    ensures TimerInterrupt(s, t1, t2).mode == Panicked && Stuck(TimerInterrupt(s, t1, t2).(mode := Waiting))
  {
    var r := TimerInterrupt(s, t1, t2);
    assert Queue(s.k, DevAddr(s.k, CLCKTIMER)) == [];
    assert r.k == s.k.(dev := r.k.dev, softBlock := 0) by {
      hide AslOk;
      IdleTick(s.k);
    }
    hide AslOk;
    StuckFrame(s, r.(mode := Waiting));
  }

  lemma IdleTick(k: Kern)
    requires Queue(k, DevAddr(k, CLCKTIMER)) == [] && DevAddr(k, CLCKTIMER) !in k.asl
    ensures Tick(k) == k
  {
    assert k.asl - {DevAddr(k, CLCKTIMER)} == k.asl;
    assert (map p | p in k.semAdd :: if p in Queue(k, DevAddr(k, CLCKTIMER)) then NULL else k.semAdd[p]) == k.semAdd;
    assert k.ready + Queue(k, DevAddr(k, CLCKTIMER)) == k.ready;
  }

  lemma StuckDevice(s: State, i: nat, t1: int, t2: int)
    requires Stuck(s) && i < CLCKTIMER && |s.k.dev| == MAXSEMA
    ensures DeviceInterrupt(s, i, t1, t2).mode == Panicked && Stuck(DeviceInterrupt(s, i, t1, t2).(mode := Waiting))
  {
    var r := DeviceInterrupt(s, i, t1, t2);
    var k := AddDev(s.k, i, 1);
    assert Queue(s.k, DevAddr(s.k, i)) == [];
    assert DevAddr(k, i) == DevAddr(s.k, i) && Queue(k, DevAddr(k, i)) == [];
    hide AslOk;
    StuckFrame(s, r.(mode := Waiting));
  }

  /** Each of the interrupts `xs`, taken with the machine waiting instead of
      panicking, ends in the same panic. */
  ghost predicate AlwaysPanics(s: State, xs: seq<Input>)
    decreases |xs|
  {
    xs == [] || (|s.k.dev| == MAXSEMA && IsInterrupt(xs[0]) &&
      (Enabled(s, xs[0]) ==> Step(s, xs[0]).mode == Panicked && AlwaysPanics(Step(s, xs[0]).(mode := Waiting),
        xs[1..])))
  }

  lemma {:induction false} StuckForever(s: State, xs: seq<Input>)
    requires Stuck(s) && forall i :: 0 <= i < |xs| ==> IsInterrupt(xs[i])
    ensures AlwaysPanics(s, xs)
    decreases |xs|
  {
    hide Step, Enabled, Stuck;
    if xs != [] {
      StuckDev(s);
      if Enabled(s, xs[0]) {
        StuckStays(s, xs[0]);
        StuckForever(Step(s, xs[0]).(mode := Waiting), xs[1..]);
      }
    }
  }

  lemma StuckDev(s: State)
    requires Stuck(s)
    ensures |s.k.dev| == MAXSEMA
  {
  }

  /** A panic is a true deadlock: had the machine waited instead, no sequence of
      interrupts would ever have made a process ready. */
  lemma PanicIsDeadlock(s: State, xs: seq<Input>)
    requires Inv(s) && s.mode == Panicked && forall i :: 0 <= i < |xs| ==> IsInterrupt(xs[i])
    ensures AlwaysPanics(s.(mode := Waiting), xs)
  {
    NoSoftNoQueue(s.k);
    assert s.k.softBlock == 0;
    assert Stuck(s.(mode := Waiting)) by {
      hide NoDup, Semaphores, OneTree, FreeOk;
      assert |s.k.dev| == MAXSEMA by { DevLength(s); }
    }
    hide Inv;
    StuckForever(s.(mode := Waiting), xs);
  }

  lemma DeviceWaiterCounted(k: Kern, i: nat)
    requires AslOk(k) && i < MAXSEMA && Queue(k, DevAddr(k, i)) != []
    ensures Queue(k, DevAddr(k, i))[0] in SoftBlocked(k)
  {
    hide NoDup;
    assert Queue(k, DevAddr(k, i))[0] in Queue(k, DevAddr(k, i));
  }

  lemma NoSoftNoQueue(k: Kern)
    requires AslOk(k) && Semaphores(k) && k.softBlock == 0
    ensures forall i: nat {:trigger DevAddr(k, i)} :: i < MAXSEMA ==> Queue(k, DevAddr(k, i)) == []
  {
    hide AslOk;
    forall i: nat {:trigger DevAddr(k, i)} | i < MAXSEMA
      ensures Queue(k, DevAddr(k, i)) == []
    {
      if Queue(k, DevAddr(k, i)) != [] {
        DeviceWaiterCounted(k, i);
        assert false;
      }
    }
  }

  /** The device semaphore a soft-blocked process waits on. */
  lemma DeviceOf(k: Kern, p: Pcb) returns (i: nat)
    requires Placed(k) && AslOk(k) && Semaphores(k) && p in SoftBlocked(k)
    ensures i < MAXSEMA && Tag(k, p) == DevAddr(k, i) && Queue(k, DevAddr(k, i)) != [] && k.dev[i] < 0
  {
    hide NoDup;
    i := (Tag(k, p) - k.base) / WORDLEN;
    assert p in Queue(k, Tag(k, p));
    assert |Queue(k, DevAddr(k, i))| <= Max0(-k.dev[i]);
  }

  lemma WakesDevice(s: State, i: nat, t: int)
    requires Inv(s) && s.mode == Waiting && |s.k.dev| == MAXSEMA && i < CLCKTIMER
    requires Queue(s.k, DevAddr(s.k, i)) != [] && s.k.dev[i] < 0
    ensures DeviceInterrupt(s, i, t, t).mode == Running
  {
    hide Core;
    var k := AddDev(s.k, i, 1);
    assert Queue(k, DevAddr(k, i)) != [];
    WakeFields(k, DevAddr(k, i));
    hide Wake;
  }

  lemma WakesClock(s: State, t: int)
    requires Inv(s) && s.mode == Waiting && |s.k.dev| == MAXSEMA
    requires Queue(s.k, DevAddr(s.k, CLCKTIMER)) != []
    ensures TimerInterrupt(s, t, t).mode == Running
  {
    hide Core;
  }

  /** An interrupt that can come now, and after which a process is running. */
  ghost predicate Awakens(s: State, x: Input)
    requires |s.k.dev| == MAXSEMA
  {
    IsInterrupt(x) && Enabled(s, x) && Step(s, x).mode == Running
  }

  /** Waiting is never in vain: one interrupt, from a device somebody waits for
      or from the clock, gives the processor a process to run. */
  lemma WaitingCanEnd(s: State)
    requires Inv(s) && s.mode == Waiting
    ensures |s.k.dev| == MAXSEMA && exists e, t :: Awakens(s, Input(e, t, t))
  {
    var p :| p in SoftBlocked(s.k);
    var i := DeviceOf(s.k, p);
    hide Inv, Enabled, Step;
    if i < CLCKTIMER {
      WakesDevice(s, i, s.clock);
      EndsWith(s, Device(i));
    } else {
      WakesClock(s, s.clock);
      EndsWith(s, Timer);
    }
  }

  lemma EndsWith(s: State, e: Event)
    requires s.mode == Waiting && |s.k.dev| == MAXSEMA && (e.Timer? || (e.Device? && e.i < CLCKTIMER))
    requires e.Timer? ==> TimerInterrupt(s, s.clock, s.clock).mode == Running
    requires e.Device? ==> DeviceInterrupt(s, e.i, s.clock, s.clock).mode == Running
    ensures Awakens(s, Input(e, s.clock, s.clock))
  {
  }
}
