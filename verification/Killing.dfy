/** The recursive kill: what it does to queues, semaphores and counters, and
    that it leaves a proper state behind. */
module Killing {
  import opened Sequences
  import opened Pcbs
  import Asl
  import opened Nucleus
  import opened Invariant
  import opened Trees

  // -------------------------------------------------------- one process dies

  /** Killing `p` takes it out of every queue it might be in, and only it. */
  lemma KillOneQueues(k: Kern, p: Pcb)
    requires ReadyOk(k) && AslOk(k) && Placed(k) && Live(k, p)
    ensures KillOne(k, p).ready == Without(k.ready, {p})
    ensures forall b {:trigger Queue(KillOne(k, p), b)} :: Queue(KillOne(k, p), b) == Without(Queue(k, b), {p})
    ensures forall b :: b in KillOne(k, p).asl ==> b in k.asl && KillOne(k, p).asl[b] != []
  {
    hide NoDup, Without;
    var r, a := KillOne(k, p), Tag(k, p);
    if p == k.cur || a != NULL {
      WithoutNothing(k.ready, {p});
    }
    forall b {:trigger Queue(r, b)}
      ensures Queue(r, b) == Without(Queue(k, b), {p})
    {
      if p !in Queue(k, b) {
        WithoutNothing(Queue(k, b), {p});
      }
    }
  }

  /** A killed process that was running is also no longer current. */
  ghost function Bury(k: Kern, p: Pcb): Kern {
    if k.cur == p then KillOne(k, p).(cur := null) else KillOne(k, p)
  }

  lemma BuryFields(k: Kern, p: Pcb)
    ensures var r := Bury(k, p);
      && r.pcbs == k.pcbs && r.base == k.base && r.wash == k.wash && r.tree == k.tree && r.dev == k.dev
      && r.free == k.free + [p] && r.procCount == k.procCount - 1
      && r.cur == (if k.cur == p then null else k.cur)
      && r.semAdd == k.semAdd[p := if k.wash then NULL else Tag(k, p)]
  {
    BuryIs(k, p);
    hide Bury;
  }

  /** All that killing one process changes. */
  lemma BuryIs(k: Kern, p: Pcb)
    ensures var r := Bury(k, p);
      r == k.(asl := r.asl, ready := r.ready, words := r.words, softBlock := r.softBlock,
              cur := if k.cur == p then null else k.cur, free := k.free + [p], procCount := k.procCount - 1,
              semAdd := k.semAdd[p := if k.wash then NULL else Tag(k, p)])
  {
    hide Without, Asl.Requeue, IsDev, Word;
  }

  lemma BuryQueues(k: Kern, p: Pcb)
    requires ReadyOk(k) && AslOk(k) && Placed(k) && Live(k, p)
    ensures Bury(k, p).ready == Without(k.ready, {p})
    ensures forall b {:trigger Queue(Bury(k, p), b)} :: Queue(Bury(k, p), b) == Without(Queue(k, b), {p})
    ensures forall b :: b in Bury(k, p).asl ==> b in k.asl && Bury(k, p).asl[b] != []
  {
    hide Without, KillOne, NoDup;
    KillOneQueues(k, p);
    var r := Bury(k, p);
    forall b {:trigger Queue(r, b)}
      ensures Queue(r, b) == Without(Queue(k, b), {p})
    {
      assert Queue(r, b) == Queue(KillOne(k, p), b);
    }
  }

  lemma BuryFree(k: Kern, p: Pcb)
    requires FreeOk(k) && Live(k, p)
    ensures FreeOk(Bury(k, p))
  {
    hide NoDup, Bury, KillOne;
    BuryFields(k, p);
    AppendNoDup(k.free, p);
    var r := Bury(k, p);
    assert forall x :: x in r.free ==> x in k.free || x == p;
  }

  lemma BuryReady(k: Kern, p: Pcb)
    requires ReadyOk(k) && AslOk(k) && Placed(k) && Live(k, p)
    ensures ReadyOk(Bury(k, p))
  {
    hide NoDup, Bury, KillOne, Without;
    BuryFields(k, p);
    BuryQueues(k, p);
    WithoutNoDup(k.ready, {p});
    var r := Bury(k, p);
    assert forall x :: x in r.free ==> x in k.free || x == p;
  }

  lemma BuryAsl(k: Kern, p: Pcb)
    requires ReadyOk(k) && AslOk(k) && Placed(k) && Live(k, p)
    ensures AslOk(Bury(k, p))
  {
    hide NoDup, Bury, KillOne, Without;
    BuryFields(k, p);
    BuryQueues(k, p);
    var r := Bury(k, p);
    assert forall x :: x in r.free ==> x in k.free || x == p;
    forall b {:trigger Queue(r, b)}
      ensures NoDup(Queue(r, b))
    {
      WithoutNoDup(Queue(k, b), {p});
    }
    forall b, x {:trigger x in Queue(r, b)} | x in Queue(r, b)
      ensures Live(r, x) && Tag(r, x) == b
    {
      assert x in Without(Queue(k, b), {p});
      assert x in Queue(k, b) && x != p;
    }
  }

  lemma BuryPlaced(k: Kern, p: Pcb)
    requires ReadyOk(k) && AslOk(k) && Placed(k) && Live(k, p)
    ensures Placed(Bury(k, p))
  {
    hide NoDup, Bury, KillOne, Without;
    BuryFields(k, p);
    BuryQueues(k, p);
    var r := Bury(k, p);
    assert forall x :: x in k.free || x == p ==> x in r.free;
    forall x | x in r.pcbs && x !in r.free
      ensures if Tag(r, x) == NULL then x == r.cur || x in r.ready else x in Queue(r, Tag(r, x))
    {
      assert x != p && Tag(r, x) == Tag(k, x);
      if Tag(k, x) != NULL {
        assert x in Queue(k, Tag(k, x));
        assert x in Without(Queue(k, Tag(k, x)), {p});
      } else if x != k.cur {
        assert x in Without(k.ready, {p});
      }
    }
  }

  lemma BuryPlaces(k: Kern, p: Pcb)
    requires Places(k) && Live(k, p)
    ensures Places(Bury(k, p))
  {
    hide NoDup, Bury, FreeOk, ReadyOk, AslOk, Placed;
    BuryFree(k, p);
    BuryReady(k, p);
    BuryAsl(k, p);
    BuryPlaced(k, p);
  }

  /** The death of a waiter gives its ordinary semaphore back exactly one unit. */
  lemma BuryWords(k: Kern, p: Pcb)
    requires ReadyOk(k) && AslOk(k) && Placed(k) && Live(k, p)
    ensures forall b {:trigger Queue(Bury(k, p), b)} :: Ordinary(k, b) ==>
      Word(Bury(k, p), b) - Word(k, b) == |Queue(k, b)| - |Queue(Bury(k, p), b)|
  {
    hide Without, NoDup;
    var r := Bury(k, p);
    BuryQueues(k, p);
    forall b {:trigger Queue(r, b)} | Ordinary(k, b)
      ensures Word(r, b) - Word(k, b) == |Queue(k, b)| - |Queue(r, b)|
    {
      WithoutOneLength(Queue(k, b), p);
    }
  }

  lemma BurySoft(k: Kern, p: Pcb)
    requires AslOk(k) && ReadyOk(k) && Live(k, p)
    ensures SoftBlocked(Bury(k, p)) == SoftBlocked(k) - {p}
    ensures k.softBlock - Bury(k, p).softBlock == (if IsDev(k, Tag(k, p)) then 1 else 0)
    ensures k.softBlock - Bury(k, p).softBlock == |SoftBlocked(k)| - |SoftBlocked(Bury(k, p))|
  {
    hide NoDup;
    var r := Bury(k, p);
    assert SoftBlocked(r) == SoftBlocked(k) - {p} by {
      hide Bury;
      BuryFields(k, p);
      assert forall x :: x in r.free ==> x in k.free || x == p;
    }
    assert p in SoftBlocked(k) <==> IsDev(k, Tag(k, p));
  }

  lemma BurySemaphores(k: Kern, p: Pcb)
    requires Places(k) && Semaphores(k) && Live(k, p)
    ensures Semaphores(Bury(k, p))
  {
    hide NoDup, Bury, KillOne, SoftBlocked, FreeOk, Without;
    BuryFields(k, p);
    BuryQueues(k, p);
    BuryWords(k, p);
    BurySoft(k, p);
    hide ReadyOk, AslOk, Placed;
  }

  // ------------------------------------------------------ a whole family dies

  /** The members of `family` that wait for a device or the clock. */
  ghost function DeviceWaiters(k: Kern, family: seq<Pcb>): set<Pcb> {
    set p | p in family && IsDev(k, Tag(k, p))
  }

  /** `r` is `k` with exactly the members of `family` freed: every queue keeps its
      survivors in their order, every ordinary semaphore is raised by the number
      of its killed waiters, and `softBlock` falls by the number of killed
      device and clock waiters. */
  ghost predicate Removed(k: Kern, r: Kern, family: seq<Pcb>) {
    Freed(k, r, family) && Unqueued(k, r, family) && Repaid(k, r, family)
  }

  ghost predicate Freed(k: Kern, r: Kern, family: seq<Pcb>) {
    && r.pcbs == k.pcbs && r.base == k.base && r.wash == k.wash && r.dev == k.dev
    && r.free == k.free + family
    && r.procCount == k.procCount - |family|
    && (forall p :: p in k.pcbs && p !in family ==> Tag(r, p) == Tag(k, p))
  }

  ghost predicate Unqueued(k: Kern, r: Kern, family: seq<Pcb>) {
    && r.ready == Without(k.ready, Elements(family))
    && (forall b {:trigger Queue(r, b)} :: Queue(r, b) == Without(Queue(k, b), Elements(family)))
  }

  ghost predicate Repaid(k: Kern, r: Kern, family: seq<Pcb>) {
    && (forall b {:trigger Queue(r, b)} :: Ordinary(k, b) ==> Word(r, b) - Word(k, b) == |Queue(k, b)| - |Queue(r, b)|)
    && k.softBlock - r.softBlock == |DeviceWaiters(k, family)|
  }

  lemma RemovedNobody(k: Kern)
    ensures Removed(k, k, [])
  {
    forall b {:trigger Queue(k, b)}
      ensures Queue(k, b) == Without(Queue(k, b), Elements<Pcb>([]))
    {
      WithoutNothing(Queue(k, b), Elements<Pcb>([]));
    }
    WithoutNothing(k.ready, Elements<Pcb>([]));
    assert DeviceWaiters(k, []) == {};
  }

  lemma RemovedOneMore(k: Kern, m: Kern, init: seq<Pcb>, p: Pcb)
    requires Removed(k, m, init) && Places(m) && Live(m, p) && p in k.pcbs && p !in init
    ensures Removed(k, Bury(m, p), init + [p])
  {
    hide NoDup, Bury, KillOne, Without, Freed, Unqueued, Repaid;
    FreedOneMore(k, m, init, p);
    UnqueuedOneMore(k, m, init, p);
    RepaidOneMore(k, m, init, p);
  }

  lemma FreedOneMore(k: Kern, m: Kern, init: seq<Pcb>, p: Pcb)
    requires Freed(k, m, init) && p in k.pcbs
    ensures Freed(k, Bury(m, p), init + [p])
  {
    hide Bury;
    BuryFields(m, p);
  }

  lemma UnqueuedOneMore(k: Kern, m: Kern, init: seq<Pcb>, p: Pcb)
    requires Unqueued(k, m, init) && Places(m) && Live(m, p)
    ensures Unqueued(k, Bury(m, p), init + [p])
  {
    hide NoDup, Bury, Without;
    BuryQueues(m, p);
    hide Places;
    var r, family := Bury(m, p), init + [p];
    assert Elements(family) == Elements(init) + {p};
    WithoutTwice(k.ready, Elements(init), {p});
    forall b {:trigger Queue(r, b)}
      ensures Queue(r, b) == Without(Queue(k, b), Elements(family))
    {
      WithoutTwice(Queue(k, b), Elements(init), {p});
      assert Queue(m, b) == Without(Queue(k, b), Elements(init));
    }
  }

  lemma RepaidOneMore(k: Kern, m: Kern, init: seq<Pcb>, p: Pcb)
    requires Freed(k, m, init) && Repaid(k, m, init) && Places(m) && Live(m, p) && p in k.pcbs && p !in init
    ensures Repaid(k, Bury(m, p), init + [p])
  {
    hide NoDup, Bury, SoftBlocked;
    BuryWords(m, p);
    BurySoft(m, p);
    hide Places;
    var r, family := Bury(m, p), init + [p];
    forall b {:trigger Queue(r, b)}
      ensures Ordinary(k, b) ==> Word(r, b) - Word(k, b) == |Queue(k, b)| - |Queue(r, b)|
    {
      assert |Queue(m, b)| >= 0;
    }
    WaitersOneMore(k, init, p);
  }

  lemma WaitersOneMore(k: Kern, init: seq<Pcb>, p: Pcb)
    requires p !in init
    ensures |DeviceWaiters(k, init + [p])| == |DeviceWaiters(k, init)| + (if IsDev(k, Tag(k, p)) then 1 else 0)
  {
    assert DeviceWaiters(k, init + [p]) == DeviceWaiters(k, init) + (if IsDev(k, Tag(k, p)) then {p} else {});
  }

  lemma {:induction false} KillAllRemoves(k: Kern, family: seq<Pcb>)
    requires Places(k) && Semaphores(k) && NoDup(family)
    requires forall p :: p in family ==> Live(k, p) && p != k.cur
    ensures Places(KillAll(k, family)) && Semaphores(KillAll(k, family))
    ensures Removed(k, KillAll(k, family), family)
    ensures KillAll(k, family).cur == k.cur && KillAll(k, family).tree == k.tree
    decreases |family|
  {
    hide Places, Semaphores, Removed;
    if family == [] {
      RemovedNobody(k);
    } else {
      var init, p := family[..|family| - 1], family[|family| - 1];
      assert family == init + [p];
      NoDupSplit(init, [p]);
      assert forall x :: x in init ==> x in family;
      assert p in family && p !in init;
      KillAllRemoves(k, init);
      var m := KillAll(k, init);
      RemovedLive(k, m, init, p);
      BuryPlaces(m, p);
      BurySemaphores(m, p);
      RemovedOneMore(k, m, init, p);
      BuryFields(m, p);
    }
  }

  lemma RemovedLive(k: Kern, m: Kern, init: seq<Pcb>, p: Pcb)
    requires Removed(k, m, init) && Live(k, p) && p !in init
    ensures Live(m, p)
  {
  }

  lemma TreeFrame(k: Kern, f: Forest)
    requires Places(k) && Semaphores(k)
    ensures Places(k.(tree := f)) && Semaphores(k.(tree := f))
  {
    TreeFramePlaces(k, f);
    TreeFrameSemaphores(k, f);
    hide *;
  }

  lemma TreeFramePlaces(k: Kern, f: Forest)
    requires Places(k)
    ensures Places(k.(tree := f))
  {
    hide NoDup;
    var r := k.(tree := f);
    assert forall b {:trigger Queue(r, b)} :: Queue(r, b) == Queue(k, b);
    assert AslOk(r) by { hide FreeOk, ReadyOk, Placed; }
    assert Placed(r) by { hide AslOk, FreeOk, ReadyOk; }
    hide AslOk, Placed, Queue;
  }

  lemma TreeFrameSemaphores(k: Kern, f: Forest)
    requires Semaphores(k)
    ensures Semaphores(k.(tree := f))
  {
    var r := k.(tree := f);
    assert forall b {:trigger Queue(r, b)} :: Queue(r, b) == Queue(k, b);
    assert SoftBlocked(r) == SoftBlocked(k);
    hide SoftBlocked, Queue;
  }

  /** The family of the current process: itself and all below it, each live. */
  lemma FamilyLives(k: Kern)
    requires Core(k) && k.cur != null
    ensures var below := Post(KidsOf(k.tree, k.cur));
      && NoDup(below) && k.cur !in below && (forall p :: p in below ==> Live(k, p))
  {
    hide FreeOk, AslOk, Placed;
    ProperIff(k.tree);
    PruneMembers(k.tree, k.cur);
    ProperIff(KidsOf(k.tree, k.cur));
  }

  lemma NukeByParts(k: Kern)
    requires k.cur != null
    ensures var m := KillAll(k, Post(KidsOf(k.tree, k.cur)));
      m.cur == k.cur ==> Nuke(k) == Bury(m, k.cur).(tree := Prune(k.tree, k.cur))
  {
    hide KillOne, Prune, KidsOf;
    var below, all := Post(KidsOf(k.tree, k.cur)), Family(k);
    assert all[..|all| - 1] == below && all[|all| - 1] == k.cur;
  }

  /** Killing the current process frees exactly its family and keeps every
      nucleus invariant for the survivors. */
  lemma NukeKeeps(k: Kern)
    requires Core(k) && k.cur != null
    ensures Core(Nuke(k)) && Nuke(k).cur == null
    ensures Removed(k, Nuke(k), Family(k))
  {
    hide NoDup, Places, Semaphores, OneTree, Bury, KillOne, Removed, Prune, KidsOf;
    var below := Post(KidsOf(k.tree, k.cur));
    FamilyLives(k);
    KillAllRemoves(k, below);
    var m, c: Pcb := KillAll(k, below), k.cur;
    NukeByParts(k);
    CurrentLives(k);
    RemovedLive(k, m, below, c);
    BuryPlaces(m, c);
    BurySemaphores(m, c);
    RemovedOneMore(k, m, below, c);
    var r := Bury(m, c);
    TreeFrame(r, Prune(k.tree, c));
    BuryFields(m, c);
    RemovedTreeFrame(k, r, Family(k), Prune(k.tree, c));
    PrunedTree(k, Nuke(k));
  }

  lemma CurrentLives(k: Kern)
    requires Core(k) && k.cur != null
    ensures Live(k, k.cur) && k.cur in k.pcbs
  {
  }

  lemma RemovedTreeFrame(k: Kern, r: Kern, family: seq<Pcb>, f: Forest)
    requires Removed(k, r, family)
    ensures Removed(k, r.(tree := f), family)
  {
    hide Without;
    assert forall b {:trigger Queue(r.(tree := f), b)} :: Queue(r.(tree := f), b) == Queue(r, b);
  }

  lemma PrunedTree(k: Kern, r: Kern)
    requires Core(k) && k.cur != null
    requires Removed(k, r, Family(k)) && r.tree == Prune(k.tree, k.cur)
    ensures OneTree(r)
  {
    hide Places, Semaphores, Unqueued, Repaid, Prune, KidsOf;
    CurrentLives(k);
    ProperIff(k.tree);
    PruneMembers(k.tree, k.cur);
    ProperIff(r.tree);
    var below := Post(KidsOf(k.tree, k.cur));
    assert forall x :: x in Family(k) ==> x in below || x == k.cur;
    assert forall x :: x in r.free ==> x in k.free || x in Family(k);
    assert forall x :: x in k.free || x in Family(k) ==> x in r.free;
    PruneShape(k.tree, k.cur);
    hide NoDup;
  }

  lemma PruneShape(f: Forest, c: Pcb)
    requires f.Node? ==> f.older == Nil
    ensures Prune(f, c).Node? ==> Prune(f, c).older == Nil
  {
  }
}
