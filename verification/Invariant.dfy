/** What every reachable nucleus state satisfies. */
module Invariant {
  import opened Sequences
  import opened Pcbs
  import Asl
  import opened Nucleus
  import opened Trees

  ghost function Max0(x: int): int { if x < 0 then 0 else x }

  ghost predicate Live(k: Kern, p: Pcb) { p in k.pcbs && p !in k.free }

  ghost predicate FreeOk(k: Kern) {
    && NoDup(k.free)
    && (forall p :: p in k.free ==> p in k.pcbs)
    && k.procCount + |k.free| == |k.pcbs|
    && (k.wash ==> forall p :: p in k.free ==> Tag(k, p) == NULL)
  }

  ghost predicate ReadyOk(k: Kern) {
    && NoDup(k.ready)
    && (forall p :: p in k.ready ==> Live(k, p) && p != k.cur && Tag(k, p) == NULL)
    && (k.cur != null ==> Live(k, k.cur) && Tag(k, k.cur) == NULL)
  }

  /** The queues are proper, and say the same as the tags of the processes. */
  ghost predicate AslOk(k: Kern) {
    && k.base > NULL
    && (forall a :: a in k.asl ==> k.asl[a] != [] && a != NULL)
    && (forall a {:trigger Queue(k, a)} :: NoDup(Queue(k, a)))
    && (forall a, p {:trigger p in Queue(k, a)} :: p in Queue(k, a) ==> Live(k, p) && Tag(k, p) == a)
  }

  /** Every live process is somewhere. */
  ghost predicate Placed(k: Kern) {
    && k.semAdd.Keys == k.pcbs
    && forall p :: p in k.pcbs && p !in k.free ==>
      if Tag(k, p) == NULL then p == k.cur || p in k.ready else p in Queue(k, Tag(k, p))
  }

  ghost predicate Places(k: Kern) {
    FreeOk(k) && ReadyOk(k) && AslOk(k) && Placed(k)
  }

  ghost function SoftBlocked(k: Kern): set<Pcb> {
    set p | p in k.pcbs && p !in k.free && IsDev(k, Tag(k, p))
  }

  /** The values of the semaphores against the lengths of their queues. */
  ghost predicate Semaphores(k: Kern) {
    && k.softBlock == |SoftBlocked(k)|
    && |k.dev| == MAXSEMA
    && (forall i: nat {:trigger k.dev[i]} :: i < MAXSEMA ==> |Queue(k, DevAddr(k, i))| <= Max0(-k.dev[i]))
    && k.dev[CLCKTIMER] <= 0
    && (forall a {:trigger Queue(k, a)} :: Ordinary(k, a) ==> |Queue(k, a)| == Max0(-Word(k, a)))
    && (forall a: nat {:trigger Queue(k, a)} :: IsDev(k, a) && (a - k.base) % WORDLEN != 0 ==> Queue(k, a) == [])
  }

  /** The live processes form one tree. */
  ghost predicate OneTree(k: Kern) {
    && NoDup(Post(k.tree))
    && (forall p :: p in Post(k.tree) ==> Live(k, p))
    && (forall p :: p in k.pcbs && p !in k.free ==> p in Post(k.tree))
    && (k.tree.Node? ==> k.tree.older == Nil)
  }

  ghost predicate Core(k: Kern) {
    Places(k) && Semaphores(k) && OneTree(k)
  }

  ghost predicate ModeOk(s: State) {
    match s.mode
    case Running => s.k.cur != null && 0 <= s.timer <= QUANTUM
    case Waiting => s.k.cur == null && s.k.ready == [] && s.k.softBlock > 0 && s.timerFlag
    case Halted => s.k.cur == null && s.k.procCount == 0
    case Panicked => s.k.cur == null && s.k.ready == [] && s.k.procCount > 0 && s.k.softBlock == 0
    case Lost => false
  }

  ghost predicate Sheets(s: State) {
    && s.vec.Keys == s.k.pcbs && s.time.Keys == s.k.pcbs
    && (forall p :: p in s.time ==> s.time[p] >= 0)
    && s.startTOD <= s.clock
    && s.charged <= (if s.k.cur != null then s.startTOD else s.clock)
  }

  ghost predicate Inv(s: State) {
    Core(s.k) && ModeOk(s) && Sheets(s)
  }

  // -------------------------------------------------------------- dispatch

  /** The process at the head of the ready queue becomes the current one. */
  lemma DispatchKeeps(k: Kern)
    requires Core(k) && k.cur == null && k.ready != []
    ensures Core(k.(ready := k.ready[1..], cur := k.ready[0]))
  {
    hide NoDup;
    var r := k.(ready := k.ready[1..], cur := k.ready[0]);
    assert k.ready[0] in k.ready;
    assert forall p :: p in k.ready <==> p == k.ready[0] || p in r.ready;
    TailNoDup(k.ready);
    assert SoftBlocked(r) == SoftBlocked(k);
    assert forall a {:trigger Queue(r, a)} :: Queue(r, a) == Queue(k, a);
    assert FreeOk(r); assert ReadyOk(r); assert AslOk(r); assert Placed(r); assert Semaphores(r); assert OneTree(r);
  }

  lemma GetNewJobKeeps(s: State, t: int)
    requires Core(s.k.(cur := null))
    ensures var r := GetNewJob(s, t); Core(r.k) && ModeOk(r)
  {
    hide Core;
    var k := s.k.(cur := null);
    CountsAreNat(k);
    if k.ready != [] {
      DispatchKeeps(k);
    }
  }

  lemma CountsAreNat(k: Kern)
    requires Core(k)
    ensures k.procCount == |set p | p in k.pcbs && p !in k.free| && k.softBlock >= 0
  {
    NoDupCardinality(k.free);
    var live := set p | p in k.pcbs && p !in k.free;
    assert k.pcbs == live + Elements(k.free);
  }

  // ------------------------------------------------------ descriptors suffice

  /** The first process of each queue. */
  ghost function Heads(k: Kern, keys: set<nat>): set<Pcb>
    requires AslOk(k) && keys <= k.asl.Keys
  {
    set a | a in keys :: k.asl[a][0]
  }

  lemma {:induction false} HeadsCount(k: Kern, keys: set<nat>)
    requires AslOk(k) && keys <= k.asl.Keys
    ensures |Heads(k, keys)| == |keys|
    ensures forall p :: p in Heads(k, keys) ==> Live(k, p) && Tag(k, p) in keys
  {
    if keys == {} {
      assert Heads(k, keys) == {};
    } else {
      var a :| a in keys;
      var rest := keys - {a};
      HeadsCount(k, rest);
      var h := k.asl[a][0];
      assert h in Queue(k, a);
      assert Heads(k, keys) == Heads(k, rest) + {h};
    }
  }

  /** There are fewer queues than processes while some process runs, so a
      descriptor is always left to block it with. */
  lemma RoomToBlock(k: Kern)
    requires ReadyOk(k) && AslOk(k) && k.cur != null
    ensures |k.asl| < |k.pcbs|
  {
    var heads := Heads(k, k.asl.Keys);
    HeadsCount(k, k.asl.Keys);
    assert k.cur !in heads;
    assert heads + {k.cur} <= k.pcbs;
    Subset(heads + {k.cur}, k.pcbs);
  }

  lemma {:induction false} Subset<T>(a: set<T>, b: set<T>)
    requires a <= b
    ensures |a| <= |b|
  {
    assert b == a + (b - a);
  }

  // ------------------------------------------------------ blocking and waking

  lemma BlockPlaces(k: Kern, a: nat)
    requires Places(k) && k.cur != null && a != NULL
    ensures Places(BlockCur(k, a))
    ensures BlockCur(k, a).asl == k.asl[a := Queue(k, a) + [k.cur]]
  {
    hide NoDup;
    RoomToBlock(k);
    var r, c: Pcb, q := BlockCur(k, a), k.cur, Queue(k, a);
    assert c !in q;
    AppendNoDup(q, c);
    assert forall p :: p in q + [c] <==> p in q || p == c;
    assert forall b {:trigger Queue(r, b)} :: Queue(r, b) == if b == a then q + [c] else Queue(k, b);
    assert AslOk(r); assert Placed(r); assert ReadyOk(r);
  }

  lemma WakePlaces(k: Kern, a: nat)
    requires Places(k) && Queue(k, a) != []
    ensures Places(Wake(k, a))
  {
    hide NoDup;
    var q := Queue(k, a);
    var p := q[0];
    var r := Wake(k, a);
    assert p in q;
    TailNoDup(q);
    AppendNoDup(k.ready, p);
    assert forall x :: x in q <==> x == p || x in q[1..];
    assert forall x :: x in r.ready <==> x in k.ready || x == p;
    assert forall b {:trigger Queue(r, b)} :: Queue(r, b) == if b == a then q[1..] else Queue(k, b);
    assert AslOk(r) by { hide FreeOk, ReadyOk, Placed; }
    assert Placed(r) by { hide FreeOk, ReadyOk; }
    hide AslOk, Placed;
    assert ReadyOk(r);
  }

  ghost function AddWord(k: Kern, a: nat, d: int): Kern { k.(words := k.words[a := Word(k, a) + d]) }

  ghost function AddDev(k: Kern, i: nat, d: int): Kern
    requires i < |k.dev|
  {
    k.(dev := k.dev[i := k.dev[i] + d])
  }

  /** An operation on the semaphore word at `a` that moves no process. */
  lemma WordKeeps(k: Kern, a: nat, v: int)
    requires Core(k) && Ordinary(k, a) && Queue(k, a) == [] && v >= 0
    ensures Core(k.(words := k.words[a := v]))
  {
    hide NoDup;
    var r := k.(words := k.words[a := v]);
    assert forall b {:trigger Queue(r, b)} :: Queue(r, b) == Queue(k, b);
    assert Places(r) by {
      hide Semaphores, OneTree;
      assert AslOk(r) by { hide FreeOk, ReadyOk, Placed; }
      hide AslOk;
      assert Placed(r) by { hide FreeOk, ReadyOk; }
      hide Placed;
    }
    hide Places;
    assert SoftBlocked(r) == SoftBlocked(k);
    hide SoftBlocked;
  }

  lemma PassKeeps(k: Kern, a: nat)
    requires Core(k) && k.cur != null && Ordinary(k, a) && Word(k, a) - 1 < 0
    ensures Core(BlockCur(AddWord(k, a, -1), a))
  {
    hide NoDup, Places;
    var r := BlockCur(AddWord(k, a, -1), a);
    assert Places(AddWord(k, a, -1)) by { WordPlaces(k, a, -1); }
    BlockPlaces(AddWord(k, a, -1), a);
    PassSemaphores(k, a);
  }

  lemma WordPlaces(k: Kern, a: nat, d: int)
    requires Places(k)
    ensures Places(AddWord(k, a, d))
  {
    hide NoDup;
    var r := AddWord(k, a, d);
    assert forall b {:trigger Queue(r, b)} :: Queue(r, b) == Queue(k, b);
  }

  lemma DevPlaces(k: Kern, i: nat, d: int)
    requires Places(k) && i < |k.dev|
    ensures Places(AddDev(k, i, d))
  {
    hide NoDup;
    var r := AddDev(k, i, d);
    assert forall b {:trigger Queue(r, b)} :: Queue(r, b) == Queue(k, b);
  }

  lemma PassSemaphores(k: Kern, a: nat)
    requires Places(k) && Semaphores(k)
    requires k.cur != null && Ordinary(k, a) && Word(k, a) - 1 < 0
    ensures Semaphores(BlockCur(AddWord(k, a, -1), a))
  {
    hide NoDup;
    RoomToBlock(k);
    var r := BlockCur(AddWord(k, a, -1), a);
    assert SoftBlocked(r) == SoftBlocked(k);
    assert forall b {:trigger Queue(r, b)} :: b != a ==> Queue(r, b) == Queue(k, b);
    assert Queue(r, a) == Queue(k, a) + [k.cur];
    assert |Queue(k, a)| == Max0(-Word(k, a)) && Word(r, a) == Word(k, a) - 1;
    assert forall b {:trigger Word(r, b)} :: b != a ==> Word(r, b) == Word(k, b);
    assert r.base == k.base && r.dev == k.dev && r.softBlock == k.softBlock;
    hide Places, BlockCur, Semaphores, SoftBlocked, Queue, Word;
    WordChanged(k, r, a);
  }

  /** Only the word and the queue at `a` have changed, and they still agree. */
  lemma WordChanged(k: Kern, r: Kern, a: nat)
    requires Semaphores(k) && Ordinary(k, a) && |Queue(r, a)| == Max0(-Word(r, a))
    requires r.base == k.base && r.dev == k.dev && r.softBlock == k.softBlock && SoftBlocked(r) == SoftBlocked(k)
    requires forall b {:trigger Queue(r, b)} :: b != a ==> Queue(r, b) == Queue(k, b) && Word(r, b) == Word(k, b)
    ensures Semaphores(r)
  {
    hide SoftBlocked, Queue, Word;
  }

  /** A V that finds the value still not positive finds somebody to wake. */
  lemma VerhogenKeeps(k: Kern, a: nat)
    requires Core(k) && Ordinary(k, a) && Word(k, a) + 1 <= 0
    ensures Queue(k, a) != [] && Core(Wake(AddWord(k, a, 1), a))
  {
    hide NoDup, Places;
    WordPlaces(k, a, 1);
    assert |Queue(k, a)| == Max0(-Word(k, a));
    WakePlaces(AddWord(k, a, 1), a);
    VerhogenSemaphores(k, a);
  }

  lemma VerhogenSemaphores(k: Kern, a: nat)
    requires Places(k) && Semaphores(k) && Ordinary(k, a) && Queue(k, a) != []
    ensures Semaphores(Wake(AddWord(k, a, 1), a))
  {
    hide NoDup;
    var r := Wake(AddWord(k, a, 1), a);
    assert Queue(k, a)[0] in Queue(k, a);
    assert SoftBlocked(r) == SoftBlocked(k);
    assert forall b {:trigger Queue(r, b)} :: Queue(r, b) == if b == a then Queue(k, a)[1..] else Queue(k, b);
    assert |Queue(k, a)| == Max0(-Word(k, a)) && Word(r, a) == Word(k, a) + 1;
    assert forall b {:trigger Word(r, b)} :: b != a ==> Word(r, b) == Word(k, b);
    assert r.base == k.base && r.dev == k.dev && r.softBlock == k.softBlock;
    hide Places, Wake, Semaphores, SoftBlocked, Queue, Word;
    WordChanged(k, r, a);
  }

  /** A wait on a device that has to block. */
  lemma WaitDeviceKeeps(k: Kern, i: nat)
    requires Core(k) && k.cur != null && i < MAXSEMA && k.dev[i] - 1 < 0
    ensures var r := BlockCur(AddDev(k, i, -1), DevAddr(k, i));
            Core(r.(softBlock := r.softBlock + 1)) && r.softBlock == k.softBlock
  {
    hide Places, Semaphores;
    assert |k.dev| == MAXSEMA && k.base > NULL by { Sized(k); }
    DevPlaces(k, i, -1);
    BlockPlaces(AddDev(k, i, -1), DevAddr(k, i));
    WaitDeviceSemaphores(k, i);
    var r := BlockCur(AddDev(k, i, -1), DevAddr(k, i));
    CounterPlaces(r, r.softBlock + 1);
  }

  lemma Sized(k: Kern)
    requires Places(k) && Semaphores(k)
    ensures |k.dev| == MAXSEMA && k.base > NULL
  {
  }

  lemma CounterPlaces(k: Kern, n: int)
    requires Places(k)
    ensures Places(k.(softBlock := n))
  {
    hide NoDup;
    var r := k.(softBlock := n);
    assert forall b {:trigger Queue(r, b)} :: Queue(r, b) == Queue(k, b);
  }

  lemma WaitDeviceSemaphores(k: Kern, i: nat)
    requires Places(k) && Semaphores(k) && k.cur != null && i < MAXSEMA && k.dev[i] - 1 < 0
    ensures var r := BlockCur(AddDev(k, i, -1), DevAddr(k, i));
            Semaphores(r.(softBlock := r.softBlock + 1))
  {
    hide NoDup, SoftBlocked, FreeOk, AslOk, Placed;
    var a := DevAddr(k, i);
    var b := BlockCur(AddDev(k, i, -1), a);
    var r := b.(softBlock := b.softBlock + 1);
    RoomToBlock(k);
    assert k.base > NULL by { Sized(k); }
    SoftBlockedMore(k, r, k.cur, a);
    hide Places;
    assert forall c {:trigger Queue(r, c)} :: c != a ==> Queue(r, c) == Queue(k, c);
    assert Queue(r, a) == Queue(k, a) + [k.cur];
    QueuedOnDevice(k, r, i, k.cur);
    hide BlockCur, Semaphores;
  }

  lemma QueuedOnDevice(k: Kern, r: Kern, i: nat, p: Pcb)
    requires Semaphores(k) && i < MAXSEMA && k.dev[i] - 1 < 0
    requires r.dev == k.dev[i := k.dev[i] - 1] && r.base == k.base && r.words == k.words &&
      r.softBlock == |SoftBlocked(r)|
    requires forall c {:trigger Queue(r, c)} :: c != DevAddr(k, i) ==> Queue(r, c) == Queue(k, c)
    requires Queue(r, DevAddr(k, i)) == Queue(k, DevAddr(k, i)) + [p]
    ensures Semaphores(r)
  {
    hide SoftBlocked, Queue;
  }

  lemma SoftBlockedMore(k: Kern, r: Kern, p: Pcb, a: nat)
    requires k.base > NULL && Live(k, p) && Tag(k, p) == NULL && IsDev(k, a)
    requires r.pcbs == k.pcbs && r.free == k.free && r.base == k.base && p in k.pcbs
    requires r.semAdd == k.semAdd[p := a]
    ensures |SoftBlocked(r)| == |SoftBlocked(k)| + 1
  {
    assert SoftBlocked(r) == SoftBlocked(k) + {p};
    assert p !in SoftBlocked(k);
  }

  /** A wait that the device's value allows to go on. */
  lemma PassDeviceKeeps(k: Kern, i: nat)
    requires Core(k) && i < CLCKTIMER && k.dev[i] - 1 >= 0
    ensures Core(AddDev(k, i, -1))
  {
    hide NoDup, Places;
    DevPlaces(k, i, -1);
    DevSemaphores(k, i, -1);
  }

  lemma DevSemaphores(k: Kern, i: nat, d: int)
    requires Semaphores(k) && i < CLCKTIMER
    requires |Queue(k, DevAddr(k, i))| <= Max0(-(k.dev[i] + d))
    ensures Semaphores(AddDev(k, i, d))
  {
    var r := AddDev(k, i, d);
    assert SoftBlocked(r) == SoftBlocked(k);
    assert forall b {:trigger Queue(r, b)} :: Queue(r, b) == Queue(k, b);
  }

  /** A device interrupt that wakes nobody. */
  lemma IdleDeviceKeeps(k: Kern, i: nat)
    requires Core(k) && i < CLCKTIMER && (k.dev[i] + 1 > 0 || Queue(k, DevAddr(k, i)) == [])
    ensures Core(AddDev(k, i, 1))
  {
    hide NoDup, Places;
    DevPlaces(k, i, 1);
    DevSemaphores(k, i, 1);
  }

  /** A device interrupt that wakes a process. */
  lemma SignalDeviceKeeps(k: Kern, i: nat)
    requires Core(k) && i < CLCKTIMER && k.dev[i] + 1 <= 0 && Queue(k, DevAddr(k, i)) != []
    ensures Core(Wake(AddDev(k, i, 1), DevAddr(k, i)).(softBlock := k.softBlock - 1))
  {
    hide NoDup, Places;
    DevPlaces(k, i, 1);
    WakePlaces(AddDev(k, i, 1), DevAddr(k, i));
    CounterPlaces(Wake(AddDev(k, i, 1), DevAddr(k, i)), k.softBlock - 1);
    SignalDeviceSemaphores(k, i);
  }

  lemma SignalDeviceSemaphores(k: Kern, i: nat)
    requires Places(k) && Semaphores(k) && i < CLCKTIMER && Queue(k, DevAddr(k, i)) != [] && k.dev[i] + 1 <= 0
    ensures Semaphores(Wake(AddDev(k, i, 1), DevAddr(k, i)).(softBlock := k.softBlock - 1))
  {
    hide NoDup, SoftBlocked, FreeOk, ReadyOk, Placed;
    var a := DevAddr(k, i);
    var q := Queue(k, a);
    var r := Wake(AddDev(k, i, 1), a).(softBlock := k.softBlock - 1);
    assert q[0] in q;
    assert |SoftBlocked(r)| == |SoftBlocked(k)| - 1 by { SoftBlockedFewer(k, r, q[0]); }
    hide Places, AslOk;
    assert forall b {:trigger Queue(r, b)} :: Queue(r, b) == if b == a then q[1..] else Queue(k, b);
  }

  lemma SoftBlockedFewer(k: Kern, r: Kern, p: Pcb)
    requires k.base > NULL && Live(k, p) && IsDev(k, Tag(k, p))
    requires r.pcbs == k.pcbs && r.free == k.free && r.base == k.base && p in k.pcbs
    requires r.semAdd == k.semAdd[p := NULL]
    ensures |SoftBlocked(r)| == |SoftBlocked(k)| - 1
  {
    assert SoftBlocked(r) == SoftBlocked(k) - {p};
    assert p in SoftBlocked(k);
  }

  /** The end of a quantum. */
  lemma PreemptKeeps(k: Kern)
    requires Core(k)
    ensures Core(Preempt(k))
  {
    PreemptPlaces(k);
    PreemptSemaphores(k);
    hide Places, Semaphores, NoDup;
  }

  lemma PreemptPlaces(k: Kern)
    requires Places(k)
    ensures Places(Preempt(k))
  {
    if k.cur != null {
      hide NoDup;
      var r, c: Pcb := Preempt(k), k.cur;
      AppendNoDup(k.ready, c);
      assert forall x :: x in r.ready <==> x in k.ready || x == c;
      assert ReadyOk(r) && FreeOk(r) by { hide AslOk, Placed; }
      assert forall b {:trigger Queue(r, b)} :: Queue(r, b) == Queue(k, b);
      assert AslOk(r) by { hide FreeOk, ReadyOk, Placed; }
      assert Placed(r) by { hide AslOk, FreeOk, ReadyOk; }
    }
  }

  lemma PreemptSemaphores(k: Kern)
    requires Semaphores(k)
    ensures Semaphores(Preempt(k))
  {
    var r := Preempt(k);
    assert SoftBlocked(r) == SoftBlocked(k);
    assert forall b {:trigger Queue(r, b)} :: Queue(r, b) == Queue(k, b);
    hide SoftBlocked;
  }

  /** The pseudo-clock tick, which also sets the clock's semaphore to zero. */
  lemma TickKeeps(k: Kern)
    requires Core(k)
    ensures Core(Tick(k).(dev := k.dev[CLCKTIMER := 0]))
  {
    hide NoDup, FreeOk, ReadyOk, AslOk, Placed;
    TickPlaces(k);
    TickSemaphores(k);
  }

  /** What a tick does to tags and queues. */
  lemma TickView(k: Kern, r: Kern)
    requires r == Tick(k).(dev := r.dev)
    ensures forall p {:trigger Tag(r, p)} ::
      Tag(r, p) == if p in Queue(k, DevAddr(k, CLCKTIMER)) then NULL else Tag(k, p)
    ensures forall b {:trigger Queue(r, b)} :: Queue(r, b) == if b == DevAddr(k, CLCKTIMER) then [] else Queue(k, b)
    ensures r.semAdd.Keys == k.semAdd.Keys
  {
  }

  lemma TickPlaces(k: Kern)
    requires Places(k) && |k.dev| == MAXSEMA
    ensures Places(Tick(k).(dev := k.dev[CLCKTIMER := 0]))
  {
    var r := Tick(k).(dev := k.dev[CLCKTIMER := 0]);
    var q := Queue(k, DevAddr(k, CLCKTIMER));
    TickView(k, r);
    assert NoDup(r.ready) by {
      hide Placed, FreeOk;
      JoinNoDup(k.ready, q);
    }
    TickPlaced(k, r, q);
  }

  ghost predicate Ticked(k: Kern, r: Kern, q: seq<Pcb>) {
    q == Queue(k, DevAddr(k, CLCKTIMER)) && r == Tick(k).(dev := r.dev)
  }

  lemma TickPlaced(k: Kern, r: Kern, q: seq<Pcb>)
    requires Places(k) && Ticked(k, r, q) && NoDup(r.ready)
    ensures Places(r)
  {
    hide NoDup, Tick, Ticked, Placed, AslOk, ReadyOk, FreeOk;
    assert FreeOk(r) by { TickFree(k, r, q); }
    assert ReadyOk(r) by { TickReady(k, r, q); }
    assert AslOk(r) by { TickAsl(k, r, q); }
    assert Placed(r) by { TickWhere(k, r, q); }
  }

  lemma TickFree(k: Kern, r: Kern, q: seq<Pcb>)
    requires FreeOk(k) && AslOk(k) && Ticked(k, r, q)
    ensures FreeOk(r)
  {
    hide NoDup;
    TickView(k, r);
  }

  lemma TickReady(k: Kern, r: Kern, q: seq<Pcb>)
    requires ReadyOk(k) && AslOk(k) && Ticked(k, r, q) && NoDup(r.ready)
    ensures ReadyOk(r)
  {
    hide NoDup;
    TickView(k, r);
    assert forall x :: x in r.ready ==> x in k.ready || x in q;
  }

  lemma TickAsl(k: Kern, r: Kern, q: seq<Pcb>)
    requires AslOk(k) && Ticked(k, r, q)
    ensures AslOk(r)
  {
    EmptyNoDup<Pcb>();
    hide NoDup;
    TickView(k, r);
  }

  lemma TickWhere(k: Kern, r: Kern, q: seq<Pcb>)
    requires Placed(k) && Ticked(k, r, q)
    ensures Placed(r)
  {
    TickView(k, r);
    assert forall x :: x in k.ready || x in q ==> x in r.ready;
  }

  lemma SoftBlockedLess(k: Kern, r: Kern, q: seq<Pcb>)
    requires r.pcbs == k.pcbs && r.free == k.free && r.base == k.base && k.base > NULL
    requires forall p {:trigger Tag(r, p)} :: Tag(r, p) == if p in q then NULL else Tag(k, p)
    requires NoDup(q) && forall p :: p in q ==> Live(k, p) && IsDev(k, Tag(k, p))
    ensures |SoftBlocked(r)| == |SoftBlocked(k)| - |q|
  {
    assert SoftBlocked(r) == SoftBlocked(k) - Elements(q);
    assert Elements(q) <= SoftBlocked(k);
    NoDupCardinality(q);
  }

  lemma TickSoft(k: Kern, r: Kern, q: seq<Pcb>)
    requires AslOk(k) && Ticked(k, r, q)
    ensures |SoftBlocked(r)| == |SoftBlocked(k)| - |q|
  {
    hide NoDup;
    TickView(k, r);
    SoftBlockedLess(k, r, q);
  }

  lemma TickSemaphores(k: Kern)
    requires AslOk(k) && Semaphores(k)
    ensures Semaphores(Tick(k).(dev := k.dev[CLCKTIMER := 0]))
  {
    hide AslOk, SoftBlocked;
    var r := Tick(k).(dev := k.dev[CLCKTIMER := 0]);
    TickView(k, r);
    TickSoft(k, r, Queue(k, DevAddr(k, CLCKTIMER)));
  }

  /** A new process, provided the block it gets carries no old semaphore address. */
  lemma SpawnKeeps(k: Kern)
    requires Core(k) && k.cur != null && k.free != [] && Tag(k, k.free[0]) == NULL
    ensures Core(Spawn(k, k.cur))
  {
    hide NoDup, Placed;
    SpawnPlaces(k);
    var r, p := Spawn(k, k.cur), k.free[0];
    assert forall x :: x in k.free ==> x in k.free[1..] || x == p;
    assert SoftBlocked(r) == SoftBlocked(k);
    assert forall b {:trigger Queue(r, b)} :: Queue(r, b) == Queue(k, b);
    SpawnTree(k);
    hide Places;
  }

  lemma SpawnPlaces(k: Kern)
    requires Places(k) && k.cur != null && k.free != [] && Tag(k, k.free[0]) == NULL
    ensures Places(Spawn(k, k.cur))
  {
    hide NoDup;
    var r, p := Spawn(k, k.cur), k.free[0];
    assert p in k.free;
    TailNoDup(k.free);
    AppendNoDup(k.ready, p);
    assert forall x :: x in k.free <==> x == p || x in r.free;
    assert forall x :: x in r.ready <==> x in k.ready || x == p;
    assert forall b {:trigger Queue(r, b)} :: Queue(r, b) == Queue(k, b);
    assert FreeOk(r); assert AslOk(r); assert ReadyOk(r); assert Placed(r);
  }

  lemma SpawnTree(k: Kern)
    requires FreeOk(k) && OneTree(k) && k.cur != null && Live(k, k.cur) && k.free != []
    ensures OneTree(Spawn(k, k.cur))
  {
    var r, p := Spawn(k, k.cur), k.free[0];
    assert p in k.free;
    assert forall x :: x in k.free ==> x == p || x in r.free;
    TailNoDup(k.free);
    ProperIff(k.tree);
    AdoptMembers(k.tree, k.cur, p);
    ProperIff(r.tree);
    hide NoDup;
  }
}