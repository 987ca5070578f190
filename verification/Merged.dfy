/** The code as shipped, on the heap: what killing does to the lists when a block
    on the ready queue still carries the address it was once blocked on. */
module Merged {
  import opened Sequences
  import opened Pcbs
  import Asl
  import PcbPool
  import opened Nucleus
  import opened Invariant
  import opened Killing
  import opened Trees
  import opened Families
  import opened KernelFacts
  import opened KernelCode
  import Shipped

  // ------------------------------------------------------------------- two queues

  /** What a tail pointer holds is one queue and no other. */
  lemma QueueUnique(tp: Pcb?, q: seq<Pcb>, r: seq<Pcb>)
    requires IsQueue(tp, q) && IsQueue(tp, r)
    ensures q == r
  {
    if q != [] {
      Agree(tp, q, r, if |q| < |r| then |q| - 1 else |r| - 1);
    }
  }

  lemma {:induction false} Agree(tp: Pcb?, q: seq<Pcb>, r: seq<Pcb>, n: nat)
    requires IsQueue(tp, q) && IsQueue(tp, r) && n < |q| && n < |r|
    ensures q[..n + 1] == r[..n + 1]
  {
    if n > 0 {
      Agree(tp, q, r, n - 1);
      assert q[n - 1] == q[..n][n - 1] && r[n - 1] == r[..n][n - 1];
      assert q[n - 1].next == q[n] && r[n - 1].next == r[n];
    }
  }

  /** From any of its members, a queue is a queue. */
  lemma Turned(tp: Pcb?, a: seq<Pcb>, p: Pcb, b: seq<Pcb>)
    requires IsQueue(tp, a + [p] + b)
    ensures IsQueue(p, b + a + [p])
  {
    var q, r, n := a + [p] + b, b + a + [p], |a| + 1 + |b|;
    forall i | 0 <= i < n
      ensures r[i] == q[if i < |b| then i + |a| + 1 else i - |b|]
    {
    }
    hide NoDup;
    assert NoDup(r) by { TurnedNoDup(a + [p], b); assert b + (a + [p]) == r; }
    assert r[n - 1] == p;
  }

  lemma LastIs(tp: Pcb?, s: seq<Pcb>, b: seq<Pcb>)
    requires IsQueue(tp, s + b) && s != []
    ensures tp == if b == [] then s[|s| - 1] else b[|b| - 1]
  {
  }

  lemma TailIs(tp: Pcb?, s: seq<Pcb>, p: Pcb)
    requires IsQueue(tp, s + [p])
    ensures tp == p
  {
  }

  lemma TurnedBack(tp: Pcb?, a: seq<Pcb>, p: Pcb, b: seq<Pcb>)
    requires IsQueue(p, b + a + [p]) && tp == if b == [] then p else b[|b| - 1]
    ensures IsQueue(tp, a + [p] + b)
  {
    hide IsQueue;
    if b == [] {
      assert b + a + [p] == a + [p] + b;
    } else {
      var init, t := b[..|b| - 1], b[|b| - 1];
      assert b + a + [p] == init + [t] + (a + [p]);
      Turned(p, init, t, a + [p]);
      assert a + [p] + init + [t] == a + [p] + b;
    }
  }

  lemma TurnedNoDup<T>(s: seq<T>, t: seq<T>)
    requires NoDup(s + t)
    ensures NoDup(t + s)
  {
    NoDupSplit(s, t);
    Trees.Apart(s, t);
    JoinNoDup(t, s);
  }

  // ------------------------------------------------------------------ the merger

  /** The free list is `a`, then `p`, then `b`, and `p` is also what the ready queue
      is said to end with: the two lists are one. */
  ghost predicate Merged(k: Kernel, a: seq<Pcb>, p: Pcb, b: seq<Pcb>)
    reads k`readyQueue, k.pool, k.pool.free`next, k.pool.free`prev
    reads k.asl, k.asl.table, k.asl.blocked`next, k.asl.blocked`prev, k.asl.blocked`semAdd
  {
    && k.pool.Valid() && k.pool.free == a + [p] + b && k.readyQueue == p
    && Apart(k)
  }

  /** The semaphore queues are proper, and apart from the free list. */
  ghost predicate Apart(k: Kernel)
    reads k.pool, k.asl, k.asl.table, k.asl.blocked`next, k.asl.blocked`prev, k.asl.blocked`semAdd
  {
    && k.asl.Valid()
    && forall x {:trigger x in k.asl.blocked} :: x in k.asl.blocked ==> x.semAdd != NULL && x !in k.pool.free
  }

  /** Takes `q`, which is not running, off the queue its semaphore address points
      to; on `ring`, which the ready queue holds, it is not to be found. */
  method Leave(k: Kernel, q: Pcb, ghost ring: seq<Pcb>)
    requires IsQueue(k.readyQueue, ring) && Apart(k) && (q.semAdd == NULL ==> q !in ring)
    requires forall x :: x in ring ==> x !in k.asl.blocked
    modifies k`readyQueue, k`words, k`softBlockCount, Elements(ring)`next, Elements(ring)`prev
    modifies k.asl`free, k.asl`spare, k.asl`listed, k.asl`queues, k.asl`blocked, k.asl.table
    modifies k.asl.blocked`next, k.asl.blocked`prev
    ensures IsQueue(k.readyQueue, ring) && k.readyQueue == old(k.readyQueue) && Apart(k)
    ensures k.asl.blocked == old(k.asl.blocked) - {q} && q !in k.asl.blocked
    ensures forall x {:trigger x.next} :: x in ring ==> x.next == old(x.next) && x.prev == old(x.prev)
  {
    hide IsQueue, NoDup, Asl.List.Valid;
    if q.semAdd == NULL {
      var out;
      WithoutNothing(ring, {q});
      k.readyQueue, out := OutProcQ(k.readyQueue, q, ring);
    } else {
      var out := k.asl.OutBlocked(q);
      if k.base <= q.semAdd && q.semAdd <= k.base + WORDLEN * CLCKTIMER {
        k.softBlockCount := k.softBlockCount - 1;
      } else {
        k.words := k.words[q.semAdd := (if q.semAdd in k.words then k.words[q.semAdd] else 0) + 1];
      }
    }
  }

  /** Puts a block at the end of the lists that are one. */
  method Return(k: Kernel, q: Pcb, ghost a: seq<Pcb>, ghost p: Pcb, ghost b: seq<Pcb>)
    requires Merged(k, a, p, b) && !k.wash && q !in k.pool.free && q !in k.asl.blocked
    modifies k`processCount, k.pool, q, Elements(k.pool.free)`next, Elements(k.pool.free)`prev
    ensures Merged(k, a, p, b + [q]) && k.processCount == old(k.processCount) - 1
  {
    hide IsQueue, NoDup, Asl.List.Valid, PcbPool.Pool.Valid, PcbPool.Washed;
    k.pool.FreePcb(q, k.wash);
    k.processCount := k.processCount - 1;
    assert a + [p] + b + [q] == a + [p] + (b + [q]);
  }

  /** Kills `q`, which is not running, its children already dead. */
  method KillChildless(k: Kernel, q: Pcb, ghost a: seq<Pcb>, ghost p: Pcb, ghost b: seq<Pcb>)
    requires Merged(k, a, p, b) && !k.wash && q !in k.pool.free
    modifies k`readyQueue, k`words, k`softBlockCount, k`processCount, k.pool, q, Elements(k.pool.free)`next
    modifies Elements(k.pool.free)`prev
    modifies k.asl`free, k.asl`spare, k.asl`listed, k.asl`queues, k.asl`blocked, k.asl.table
    modifies k.asl.blocked`next, k.asl.blocked`prev
    ensures Merged(k, a, p, b + [q]) && k.asl.blocked <= old(k.asl.blocked)
    ensures k.processCount == old(k.processCount) - 1
  {
    hide IsQueue, NoDup, Asl.List.Valid, PcbPool.Washed;
    ghost var ring := b + a + [p];
    LastIs(k.pool.tail, a + [p], b);
    Turned(k.pool.tail, a, p, b);
    assert forall x :: x in ring <==> x in k.pool.free;
    assert Elements(ring) == Elements(k.pool.free);
    Leave(k, q, ring);
    TurnedBack(k.pool.tail, a, p, b);
    Return(k, q, a, p, b);
  }

  /** Nobody in `family` is free or running, and all blocks spoken of are in `all`. */
  ghost predicate Doomed(k: Kernel, family: seq<Pcb>, all: set<Pcb>)
    reads k`currentProcess, k.pool, k.asl
  {
    && (forall x :: x in family ==> x !in k.pool.free && x != k.currentProcess && x in all)
    && Elements(k.pool.free) <= all && k.asl.blocked <= all
  }

  /** Kills everything below `parent`, the newest child first. */
  method KillBelow(k: Kernel, parent: Pcb, ghost kids: Forest, ghost a: seq<Pcb>, ghost p: Pcb, ghost b: seq<Pcb>,
    ghost all: set<Pcb>)
    requires Merged(k, a, p, b) && !k.wash && k.Rooted(parent, kids) && Doomed(k, Post(kids), all)
    modifies k`readyQueue, k`words, k`softBlockCount, k`processCount, k.pool, all`next, all`prev, Everyone(kids)
    modifies parent`child
    modifies k.asl`free, k.asl`spare, k.asl`listed, k.asl`queues, k.asl`blocked, k.asl.table
    ensures Merged(k, a, p, b + Post(kids)) && Doomed(k, [], all)
    ensures k.processCount == old(k.processCount) - |Post(kids)| && parent.child == null &&
      k.asl.blocked <= old(k.asl.blocked)
    decreases |Post(kids)|, 1
  {
    hide IsQueue, NoDup, Asl.List.Valid, PcbPool.Pool.Valid, Merged, Apart, Kernel.Rooted, Doomed, Names, Wired;
    hide Proper, Post, Everyone;
    ghost var rest, done := kids, [];
    assert b + [] == b;
    while parent.child != null
      invariant Merged(k, a, p, b + done) && k.Rooted(parent, rest) && Doomed(k, Post(rest), all)
      invariant Post(kids) == done + Post(rest) && Everyone(rest) <= Everyone(kids)
      invariant k.processCount == old(k.processCount) - |done| && k.asl.blocked <= old(k.asl.blocked)
      decreases |Post(rest)|
    {
      KillNewest(k, parent, rest, a, p, b + done, all);
      assert b + done + (Post(rest.kids) + [rest.p]) == b + (done + (Post(rest.kids) + [rest.p]));
      done := done + (Post(rest.kids) + [rest.p]);
      rest := rest.older;
    }
    k.RootedLeaf(parent, rest);
    NobodyThere();
    assert Post(kids) == done;
  }

  lemma NobodyThere()
    ensures Post(Nil) == []
  {
  }

  method KillNewest(k: Kernel, parent: Pcb, ghost kids: Forest, ghost a: seq<Pcb>, ghost p: Pcb, ghost b: seq<Pcb>,
    ghost all: set<Pcb>)
    requires Merged(k, a, p, b) && !k.wash && k.Rooted(parent, kids) && Doomed(k, Post(kids), all) &&
      parent.child != null
    modifies k`readyQueue, k`words, k`softBlockCount, k`processCount, k.pool, all`next, all`prev, Everyone(kids)
    modifies parent`child
    modifies k.asl`free, k.asl`spare, k.asl`listed, k.asl`queues, k.asl`blocked, k.asl.table
    ensures kids.Node? && Merged(k, a, p, b + (Post(kids.kids) + [kids.p]))
    ensures k.Rooted(parent, kids.older) && Doomed(k, Post(kids.older), all)
    ensures k.processCount == old(k.processCount) - |Post(kids.kids)| - 1 && k.asl.blocked <= old(k.asl.blocked)
    ensures Post(kids) == Post(kids.kids) + [kids.p] + Post(kids.older) && Everyone(kids.older) <= Everyone(kids)
    decreases |Post(kids)|, 0
  {
    hide IsQueue, NoDup, Asl.List.Valid, PcbPool.Pool.Valid, Merged, Apart, Wired, IsFamily;
    var child := k.PopChild(parent, kids);
    assert Post(kids) == Post(kids.kids) + [kids.p] + Post(kids.older);
    NewestApart(kids);
    Exists(kids.older);
    Kill(k, child, kids.kids, a, p, b, all);
  }

  /** Kills `q`, which is not running, and everything below it. */
  method Kill(k: Kernel, q: Pcb, ghost kids: Forest, ghost a: seq<Pcb>, ghost p: Pcb, ghost b: seq<Pcb>,
    ghost all: set<Pcb>)
    requires Merged(k, a, p, b) && !k.wash && k.Rooted(q, kids) && Doomed(k, Post(kids) + [q], all)
    modifies k`readyQueue, k`words, k`softBlockCount, k`processCount, k.pool, all`next, all`prev, Everyone(kids), q
    modifies k.asl`free, k.asl`spare, k.asl`listed, k.asl`queues, k.asl`blocked, k.asl.table
    ensures Merged(k, a, p, b + (Post(kids) + [q])) && Doomed(k, [], all)
    ensures k.processCount == old(k.processCount) - |Post(kids)| - 1 && k.asl.blocked <= old(k.asl.blocked)
    ensures forall x :: x in k.pool.free <==> x in old(k.pool.free) || x in Post(kids) || x == q
    decreases |Post(kids)|, 2
  {
    hide IsQueue, NoDup, Asl.List.Valid, PcbPool.Pool.Valid, Apart, Wired, IsFamily;
    assert q !in a + [p] + b && q !in Post(kids) && q in Post(kids) + [q];
    KillBelow(k, q, kids, a, p, b, all);
    KillChildless(k, q, a, p, b + Post(kids));
  }

  // -------------------------------------------------- the death of the creator

  /** Kills the newest child `p` of `c`, made of a stale block and last on the ready
      queue: the free list takes the place of that queue. */
  method KillStale(k: Kernel, c: Pcb, ghost p: Pcb, ghost older: Forest, ghost ready: seq<Pcb>, ghost all: set<Pcb>)
    requires k.pool.Valid() && Apart(k) && !k.wash && IsQueue(k.readyQueue, ready) && k.readyQueue == p
    requires k.Rooted(c, Node(p, Nil, older)) && Doomed(k, Post(Node(p, Nil, older)), all)
    requires p.semAdd != NULL && forall x :: x in ready ==> x !in k.asl.blocked && x !in k.pool.free && x in all
    modifies k`readyQueue, k`words, k`softBlockCount, k`processCount, k.pool, all`next, all`prev
    modifies Everyone(Node(p, Nil, older)), c`child
    modifies k.asl`free, k.asl`spare, k.asl`listed, k.asl`queues, k.asl`blocked, k.asl.table
    ensures Merged(k, old(k.pool.free), p, []) && k.Rooted(c, older) && Doomed(k, Post(older), all)
    ensures k.processCount == old(k.processCount) - 1 && k.asl.blocked <= old(k.asl.blocked)
  {
    hide IsQueue, Apart, PcbPool.Pool.Valid, Merged, Doomed, Kernel.Rooted;
    ghost var kids, free := Node(p, Nil, older), k.pool.free;
    HasChild(k, c, kids);
    StaleDoomed(k, p, older, all);
    var q := k.PopChild(c, kids);
    label Popped:
    FreeStale(k, q, ready);
    assert old@Popped(k.Rooted(c, older)) && c.child == old@Popped(c.child);
    assert forall x {:trigger x.child} {:trigger x.prnt} {:trigger x.nextSib} {:trigger x.prevSib} ::
      x in Everyone(older) ==>
      && x.child == old@Popped(x.child) && x.prnt == old@Popped(x.prnt)
      && x.nextSib == old@Popped(x.nextSib) && x.prevSib == old@Popped(x.prevSib);
    StillDoomed(k, free, p, older, all);
  }

  lemma HasChild(k: Kernel, c: Pcb, kids: Forest)
    requires k.Rooted(c, kids) && kids.Node?
    ensures c.child != null && c !in Post(kids.older) && c != kids.p && Proper(kids)
    ensures forall x :: x in Everyone(kids.older) ==> allocated(x) && x != kids.p
  {
    assert Names(kids) != [];
    NewestApart(kids);
    Exists(kids.older);
  }

  /** What `Doomed` says of the stale block and of its siblings. */
  lemma StaleDoomed(k: Kernel, p: Pcb, older: Forest, all: set<Pcb>)
    requires Doomed(k, Post(Node(p, Nil, older)), all) && Proper(Node(p, Nil, older))
    ensures p !in k.pool.free && p in all && Elements(k.pool.free) <= all && k.asl.blocked <= all
    ensures forall x :: x in Post(older) ==> x !in k.pool.free && x != p && x != k.currentProcess && x in all
  {
    NewestApart(Node(p, Nil, older));
  }

  lemma StillDoomed(k: Kernel, free: seq<Pcb>, p: Pcb, older: Forest, all: set<Pcb>)
    requires Merged(k, free, p, []) && p in all && Elements(free) <= all && k.asl.blocked <= all
    requires forall x :: x in Post(older) ==> x !in free && x != p && x != k.currentProcess && x in all
    ensures Doomed(k, Post(older), all)
  {
    hide IsQueue, Apart, PcbPool.Pool.Valid;
    assert free + [p] + [] == free + [p];
    forall x | x in k.pool.free
      ensures x in all
    {
      assert x in Elements(free) || x == p;
    }
  }

  method FreeStale(k: Kernel, p: Pcb, ghost ready: seq<Pcb>)
    requires k.pool.Valid() && Apart(k) && !k.wash && IsQueue(k.readyQueue, ready) && k.readyQueue == p
    requires p !in k.pool.free && p.semAdd != NULL &&
      forall x :: x in ready ==> x !in k.asl.blocked && x !in k.pool.free
    modifies k`readyQueue, k`words, k`softBlockCount, k`processCount, k.pool, p
    modifies Elements(ready)`next, Elements(ready)`prev, Elements(k.pool.free)`next, Elements(k.pool.free)`prev
    modifies k.asl`free, k.asl`spare, k.asl`listed, k.asl`queues, k.asl`blocked, k.asl.table
    modifies k.asl.blocked`next, k.asl.blocked`prev
    ensures Merged(k, old(k.pool.free), p, []) && k.asl.blocked <= old(k.asl.blocked)
    ensures k.processCount == old(k.processCount) - 1
    ensures IsQueue(k.readyQueue, ready) <==> ready == old(k.pool.free) + [p]
  {
    hide IsQueue, NoDup, Asl.List.Valid, PcbPool.Washed;
    ghost var free := k.pool.free;
    assert forall x :: x in Elements(free) ==> allocated(x) && x !in Elements(ready) && x !in k.asl.blocked;
    Leave(k, p, ready);
    assert forall x {:trigger x.next} :: x in Elements(free) ==> x.next == old(x.next) && x.prev == old(x.prev);
    assert IsQueue(k.pool.tail, free);
    FreeLast(k, p);
    hide Apart, Merged;
    if IsQueue(k.readyQueue, ready) {
      QueueUnique(p, ready, free + [p]);
    }
  }

  method FreeLast(k: Kernel, p: Pcb)
    requires k.pool.Valid() && Apart(k) && !k.wash && k.readyQueue == p && p !in k.pool.free && p !in k.asl.blocked
    modifies k`processCount, k.pool, p, Elements(k.pool.free)`next, Elements(k.pool.free)`prev
    ensures Merged(k, old(k.pool.free), p, []) && IsQueue(k.readyQueue, old(k.pool.free) + [p])
    ensures k.processCount == old(k.processCount) - 1
  {
    hide IsQueue, NoDup, Asl.List.Valid, PcbPool.Washed;
    k.pool.FreePcb(p, k.wash);
    k.processCount := k.processCount - 1;
    assert old(k.pool.free) + [p] + [] == old(k.pool.free) + [p];
    TailIs(k.pool.tail, old(k.pool.free), p);
  }

  /** Takes the dying process off its parent's children and frees it. */
  method FreeRunning(k: Kernel, c: Pcb, ghost sibs: seq<Pcb>, ghost a: seq<Pcb>, ghost p: Pcb, ghost b: seq<Pcb>)
    requires Merged(k, a, p, b) && !k.wash && c !in k.pool.free && c !in k.asl.blocked
    requires Lineage(c, true, Nil, sibs)
    modifies k`processCount, k.pool, c, Elements(k.pool.free)`next, Elements(k.pool.free)`prev
    modifies Above(c, sibs)`child, Elements(sibs)`prnt, Elements(sibs)`nextSib, Elements(sibs)`prevSib
    ensures Merged(k, a, p, b + [c]) && k.processCount == old(k.processCount) - 1
  {
    hide IsQueue, NoDup, Merged, Without;
    var out := OutChild(c, sibs);
    Return(k, c, a, p, b);
  }

  /** What the scheduler takes from a ready queue that has become the free list. */
  method Dispatch(k: Kernel, ghost a: seq<Pcb>, ghost p: Pcb, ghost b: seq<Pcb>) returns (job: Pcb?)
    requires Merged(k, a, p, b) && b != []
    modifies k`readyQueue, Elements(k.pool.free)`next, Elements(k.pool.free)`prev
    ensures job == b[0] && IsQueue(k.readyQueue, b[1..] + a + [p])
  {
    hide IsQueue, NoDup, Asl.List.Valid, Apart;
    ghost var ring := b + a + [p];
    Turned(k.pool.tail, a, p, b);
    assert forall x :: x in ring <==> x in k.pool.free;
    assert Elements(ring) == Elements(k.pool.free);
    k.readyQueue, job := RemoveProcQ(k.readyQueue, ring);
    assert ring[1..] == b[1..] + a + [p];
  }

  method KillKids(k: Kernel, c: Pcb, ghost kids: Forest, ghost ready: seq<Pcb>, ghost all: set<Pcb>)
    requires k.pool.Valid() && Apart(k) && !k.wash && IsQueue(k.readyQueue, ready)
    requires k.Rooted(c, kids) && kids.Node? && kids.kids == Nil && Doomed(k, Post(kids), all) && k.readyQueue == kids.p
    requires kids.p.semAdd != NULL && forall x :: x in ready ==> x !in k.asl.blocked && x !in k.pool.free && x in all
    requires c !in k.pool.free && c !in Post(kids)
    modifies k`readyQueue, k`words, k`softBlockCount, k`processCount, k.pool, all`next, all`prev, Everyone(kids)
    modifies c`child
    modifies k.asl`free, k.asl`spare, k.asl`listed, k.asl`queues, k.asl`blocked, k.asl.table
    ensures Merged(k, old(k.pool.free), kids.p, Post(kids.older)) && Doomed(k, [], all) && c !in k.pool.free
    ensures k.processCount == old(k.processCount) - 1 - |Post(kids.older)| && k.asl.blocked <= old(k.asl.blocked)
  {
    hide IsQueue, NoDup, Asl.List.Valid, PcbPool.Pool.Valid, Apart, Wired, IsFamily, Doomed;
    ghost var free, p := k.pool.free, kids.p;
    NewestApart(kids);
    hide Kernel.Rooted;
    assert c != p && c !in Post(kids.older);
    KillStale(k, c, p, kids.older, ready, all);
    assert [] + Post(kids.older) == Post(kids.older);
    KillBelow(k, c, kids.older, free, p, [], all);
  }

  /** Kills everything below `c`, whose newest child is the stale block. */
  method KillProgeny(k: Kernel, c: Pcb, ghost kids: Forest, ghost sibs: seq<Pcb>, ghost ready: seq<Pcb>,
    ghost all: set<Pcb>)
    requires k.pool.Valid() && Apart(k) && !k.wash && IsQueue(k.readyQueue, ready)
    requires k.Rooted(c, kids) && kids.Node? && kids.kids == Nil && Doomed(k, Post(kids), all) && k.readyQueue == kids.p
    requires kids.p.semAdd != NULL && forall x :: x in ready ==> x !in k.asl.blocked && x !in k.pool.free && x in all
    requires c !in k.pool.free && c !in Post(kids) && Lineage(c, true, kids, sibs) &&
      Above(c, sibs) + Elements(sibs) <= all
    modifies k`readyQueue, k`words, k`softBlockCount, k`processCount, k.pool, all`next, all`prev, Everyone(kids)
    modifies c`child
    modifies k.asl`free, k.asl`spare, k.asl`listed, k.asl`queues, k.asl`blocked, k.asl.table
    ensures Merged(k, old(k.pool.free), kids.p, Post(kids.older)) && Doomed(k, [], all) && c !in k.pool.free
    ensures k.processCount == old(k.processCount) - 1 - |Post(kids.older)| && k.asl.blocked <= old(k.asl.blocked)
    ensures Lineage(c, true, Nil, sibs)
  {
    hide IsQueue, Merged, Doomed, Apart, PcbPool.Pool.Valid, Kernel.Rooted, IsFamily;
    ghost var above: Pcb? := c.prnt;
    KillKids(k, c, kids, ready, all);
    if above != null {
      assert old(IsFamily(above, sibs)) && unchanged(above`child);
      assert forall i :: 0 <= i < |sibs| ==>
        sibs[i] in sibs && sibs[i].prnt == old(sibs[i].prnt)
        && sibs[i].nextSib == old(sibs[i].nextSib) && sibs[i].prevSib == old(sibs[i].prevSib);
    }
  }

  /** Kills the running process `c`, whose newest child is the stale block. */
  method Nuke(k: Kernel, c: Pcb, ghost kids: Forest, ghost sibs: seq<Pcb>, ghost ready: seq<Pcb>, ghost all: set<Pcb>)
    requires k.pool.Valid() && Apart(k) && !k.wash && IsQueue(k.readyQueue, ready)
    requires k.Rooted(c, kids) && kids.Node? && kids.kids == Nil && Doomed(k, Post(kids), all) && k.readyQueue == kids.p
    requires kids.p.semAdd != NULL && forall x :: x in ready ==> x !in k.asl.blocked && x !in k.pool.free && x in all
    requires c in all && c !in k.pool.free && c !in k.asl.blocked && c !in Post(kids) && Lineage(c, true, kids, sibs)
    requires Above(c, sibs) + Elements(sibs) <= all
    modifies k`readyQueue, k`words, k`softBlockCount, k`processCount, k.pool, all
    modifies k.asl`free, k.asl`spare, k.asl`listed, k.asl`queues, k.asl`blocked, k.asl.table
    ensures Merged(k, old(k.pool.free), kids.p, Post(kids.older) + [c])
    ensures k.processCount == old(k.processCount) - 2 - |Post(kids.older)|
    ensures Elements(k.pool.free) <= all
  {
    hide IsQueue, NoDup, Asl.List.Valid, PcbPool.Pool.Valid, Apart, Kernel.Rooted, Lineage;
    ghost var free := k.pool.free;
    KillProgeny(k, c, kids, sibs, ready, all);
    FreeRunning(k, c, sibs, free, kids.p, Post(kids.older));
  }

  /** The process table just after SYS1 has been handed a stale block. */
  ghost predicate Created(k: Kernel, s: State, c: Pcb, p: Pcb)
    reads k, k.pool, k.asl, k.semaphoreArray, k.asl.table, k.asl.blocked, k.pool.free, k.ready
    reads k.M.k.pcbs, k.M.k.semAdd.Keys, k.M.time.Keys, k.M.vec.Keys, Everyone(k.M.k.tree)
  {
    && Inv(s) && s.k.cur == c && s.k.free != [] && s.k.free[0] == p && Tag(s.k, p) != NULL &&
       s.k.semAdd.Keys == s.k.pcbs
    && k.Heap() && k.Stands() && Planted(k.M.k.tree)
    && k.M.k == Spawn(s.k, c)
  }

  lemma ListsThen(k: Kernel, s: State, c: Pcb, p: Pcb)
    requires Created(k, s, c, p)
    ensures k.pool.Valid() && Apart(k) && k.currentProcess == c && k.pool.free == s.k.free[1..]
    ensures IsQueue(k.readyQueue, s.k.ready + [p]) && k.readyQueue == p && p.semAdd != NULL
    ensures forall x :: x in s.k.ready + [p] ==> x !in k.asl.blocked && x !in k.pool.free && x in s.k.pcbs
    ensures k.asl.blocked <= s.k.pcbs && Elements(k.pool.free) <= s.k.pcbs && c !in k.asl.blocked
  {
    hide Planted, ModeOk, Sheets, OneTree, Invariant.Semaphores, Asl.List.Valid, NoDup, Devices;
    assert k.ready == s.k.ready + [p] && k.pool.free == s.k.free[1..] && k.asl.queues == s.k.asl;
    assert p.semAdd == Tag(s.k, p) by { k.TagIs(p); }
    assert c.semAdd == NULL by { RunningUntagged(s.k); k.TagIs(c); }
    hide Records;
    ListsApart(s.k);
    BlockedSomewhere(k, s.k);
    TailIs(k.readyQueue, s.k.ready, p);
    hide Inv;
    forall i | 0 <= i < |k.ready|
      ensures k.ready[i] !in k.asl.blocked && k.ready[i] !in k.pool.free
    {
    }
  }

  lemma Counted(k: Kernel)
    requires k.Stands()
    ensures k.processCount == k.M.k.procCount
  {
  }

  lemma RunningUntagged(k: Kern)
    requires Core(k) && k.cur != null
    ensures Tag(k, k.cur) == NULL && k.cur in k.pcbs
  {
    hide OneTree, Invariant.Semaphores, NoDup, AslOk, Placed;
  }

  lemma ListsApart(k: Kern)
    requires Core(k) && k.free != []
    ensures forall x :: x in k.ready + [k.free[0]] ==> x !in k.free[1..] && x in k.pcbs
    ensures forall x :: x in k.free ==> x in k.pcbs
    ensures forall a :: a in k.asl ==> a != NULL && forall x :: x in k.asl[a] ==> Live(k, x) && Tag(k, x) == a
  {
    hide OneTree, Invariant.Semaphores, Placed;
    TailNoDup(k.free);
    hide NoDup;
    assert k.free[0] in k.free && forall x :: x in k.free[1..] ==> x in k.free;
    forall a | a in k.asl
      ensures a != NULL && forall x :: x in k.asl[a] ==> Live(k, x) && Tag(k, x) == a
    {
      assert Queue(k, a) == k.asl[a];
    }
  }

  /** Who is blocked is in the queue its semaphore address tells. */
  lemma BlockedSomewhere(k: Kernel, r: Kern)
    requires k.asl.Valid() && k.asl.queues == r.asl
    requires forall a :: a in r.asl ==> a != NULL && forall x :: x in r.asl[a] ==> Live(r, x) && Tag(r, x) == a
    ensures forall x :: x in k.asl.blocked ==> x.semAdd != NULL && Live(r, x)
  {
    k.asl.SameSize();
    hide Asl.List.Valid;
    forall x | x in k.asl.blocked
      ensures x.semAdd != NULL && Live(r, x)
    {
      assert x.semAdd in r.asl && x in r.asl[x.semAdd];
    }
  }

  lemma TreeThen(k: Kernel, s: State, c: Pcb, p: Pcb)
    requires Created(k, s, c, p)
    ensures var tree := k.M.k.tree; var kids := KidsOf(tree, c);
      && kids == Node(p, Nil, KidsOf(s.k.tree, c)) && k.Rooted(c, kids)
      && Lineage(c, true, kids, Siblings(tree, c)) &&
         Above(c, Siblings(tree, c)) + Elements(Siblings(tree, c)) <= s.k.pcbs
    ensures forall x :: x in Post(KidsOf(k.M.k.tree, c)) ==> x in s.k.pcbs && x != c && x !in s.k.free[1..]
    ensures c in s.k.pcbs && c !in s.k.free
  {
    hide Kernel.Heap, Kernel.Stands, Kernel.Rooted, Lineage, Planted, Core, Adopt, KidsOf, Siblings, Proper, Post;
    assert k.M.k.tree == Adopt(s.k.tree, c, p) && Core(s.k) && Planted(k.M.k.tree);
    hide Created, Inv, Spawn;
    TreeGrown(s.k, c, p);
    Kin(k, k.M.k.tree, c);
    forall x | x in Above(c, Siblings(k.M.k.tree, c)) + Elements(Siblings(k.M.k.tree, c))
      ensures x in s.k.pcbs
    {
      assert x in Above(c, Siblings(k.M.k.tree, c)) || x in Siblings(k.M.k.tree, c);
    }
  }

  lemma TreeGrown(k: Kern, c: Pcb, p: Pcb)
    requires Core(k) && k.cur == c && k.free != [] && k.free[0] == p
    ensures var tree := Adopt(k.tree, c, p);
      && Proper(tree) && c in Post(tree) && tree.Node? && tree.older == Nil &&
         KidsOf(tree, c) == Node(p, Nil, KidsOf(k.tree, c))
      && forall x :: x in Post(tree) ==> x in k.pcbs && x !in k.free[1..]
    ensures c in k.pcbs && c !in k.free
  {
    hide Invariant.Semaphores;
    CurrentLives(k);
    ListsApart(k);
    hide Places;
    ProperIff(k.tree);
    hide NoDup;
    assert p in k.free && forall x :: x in k.free[1..] ==> x in k.free;
    AdoptMembers(k.tree, c, p);
    AdoptKids(k.tree, c, p);
  }

  /** The relatives of `c` in a planted tree. */
  lemma Kin(k: Kernel, tree: Forest, c: Pcb)
    requires Planted(tree) && Proper(tree) && c in Post(tree) && tree.Node? && tree.older == Nil
    ensures k.Rooted(c, KidsOf(tree, c)) && Lineage(c, true, KidsOf(tree, c), Siblings(tree, c))
    ensures forall x :: x in Post(KidsOf(tree, c)) ==> x in Post(tree) && x != c
    ensures forall x :: x in Above(c, Siblings(tree, c)) || x in Siblings(tree, c) ==> x in Post(tree)
  {
    hide Wired, IsFamily;
    PruneMembers(tree, c);
    WiredAt(tree, c);
    WiredBelow(tree, c);
    ParentPointer(tree, c);
    if c.prnt != null {
      NotAboveItself(tree, c, c.prnt);
      ChildrenInside(tree, c.prnt);
      WiredAt(tree, c.prnt);
    }
  }

  /** As shipped, from any state in which the next free block has an old semaphore
      address: SYS1, then the death of the creator, then the scheduler. The job it
      takes, and every one it could take later, is a block on the free list. */
  method CreateAndDie(k: Kernel) returns (job: Pcb?)
    requires k.Valid() && Planted(k.M.k.tree) && k.mode == Running && !k.wash
    requires k.M.k.free != [] && Tag(k.M.k, k.M.k.free[0]) != NULL
    modifies k, k.pool, k.asl, k.asl.table, k.M.k.pcbs
    ensures var freed := Nucleus.Family(old(k.M.k));
      var free := old(k.M.k.free);
      && k.pool.free == free[1..] + [free[0]] + freed
      && freed != [] && job == freed[0] && IsQueue(k.readyQueue, freed[1..] + free[1..] + [free[0]])
      && k.processCount == old(k.processCount) - |freed|
  {
    hide IsQueue, NoDup, Asl.List.Valid, PcbPool.Pool.Valid, Apart, Wired, IsFamily, Kernel.Rooted, Inv, Kernel.Heap;
    hide Kernel.Stands;
    hide Planted, Lineage, Siblings, KidsOf, Adopt, Wiped;
    k.Runner();
    k.Newborn();
    var c: Pcb := k.currentProcess;
    ghost var s, all := k.M, k.M.k.pcbs;
    ghost var p := s.k.free[0];
    Counted(k);
    var done := k.CreateProcess();
    Counted(k);
    assert Created(k, s, c, p);
    hide Created, Kernel.Valid;
    ListsThen(k, s, c, p);
    TreeThen(k, s, c, p);
    ghost var kids, sibs := KidsOf(k.M.k.tree, c), Siblings(k.M.k.tree, c);
    Nuke(k, c, kids, sibs, s.k.ready + [p], all);
    job := Dispatch(k, s.k.free[1..], p, Post(kids.older) + [c]);
  }

  /** The whole course on the heap, from the boot on: after eight events the root
      terminates as the last process there is, and the scheduler, instead of
      halting the machine, takes the root itself, whose block is free. */
  method ShippedGoesWrong(base: nat) returns (k: Kernel, job: Pcb?)
    requires base > NULL
    ensures |k.table| == 3 && NoDup(k.table) && !k.wash
    ensures k.processCount == 0 && job == k.table[0] && job in k.pool.free &&
      IsQueue(k.readyQueue, [k.table[1], k.table[2]])
  {
    hide Kernel.Valid, Planted, Booted, IsQueue, NoDup;
    k := new Kernel.Boot(3, base, false, map[], Shipped.NOW);
    Distinct(k.table);
    AtBoot(k.table[0], k.table[1], k.table[2], base);
    job := PlayOn(k);
  }

  method PlayOn(k: Kernel) returns (job: Pcb?)
    requires |k.table| == 3 && NoDup(k.table) && k.base > NULL && k.Valid() && Planted(k.M.k.tree)
    requires k.M == Booted(k.table, k.base, false, map[], Shipped.NOW)
    modifies k, k.pool, k.asl, k.asl.table, k.semaphoreArray, k.M.k.pcbs
    ensures !k.wash && k.processCount == 0 && job == k.table[0] && job in k.pool.free
    ensures IsQueue(k.readyQueue, [k.table[1], k.table[2]])
  {
    hide *;
    ghost var a, b, c := k.table[0], k.table[1], k.table[2];
    Distinct(k.table);
    AtBoot(a, b, c, k.base);
    Play(k);
    AtLast(a, b, c, k.base);
    Stood(k);
    job := CreateAndDie(k);
    assert [a][1..] + [c, b][1..] + [[c, b][0]] == [b, c];
  }

  method Play(k: Kernel)
    requires |k.table| == 3 && NoDup(k.table) && k.base > NULL && k.Valid() && Planted(k.M.k.tree)
    requires k.M == Booted(k.table, k.base, false, map[], Shipped.NOW)
    modifies k, k.pool, k.asl, k.asl.table, k.semaphoreArray, k.M.k.pcbs
    ensures k.Valid() && Planted(k.M.k.tree)
    ensures var a, b, c := k.table[0], k.table[1], k.table[2];
      k.M == Shipped.Still(a, b, c, Shipped.Kern7(a, b, c, k.base), false, QUANTUM, Running, 5)
  {
    hide *;
    var base := k.base;
    ghost var a, b, c := k.table[0], k.table[1], k.table[2];
    Distinct(k.table);
    Shipped.Step0(a, b, c, base);
    Shipped.Step1(a, b, c, base);
    Shipped.Step2(a, b, c, base);
    Shipped.Step3(a, b, c, base);
    Shipped.Step4(a, b, c, base);
    Shipped.Step5(a, b, c, base);
    Shipped.Step6(a, b, c, base);
    Shipped.Step7(a, b, c, base);
    Shipped.Allowed(a, b, c, base);
    Shipped.SameBlocks(a, b, c, base);
    k.Handle(Shipped.Input0(Create));
    k.Handle(Shipped.Input0(Clock));
    k.Handle(Shipped.Input0(Create));
    k.Handle(Shipped.Input0(Timer));
    k.Handle(Shipped.Input0(P(Shipped.Beyond(base))));
    k.Handle(Shipped.Input0(Terminate));
    k.Handle(Shipped.Input0(Timer));
  }

  lemma Distinct(table: seq<Pcb>)
    requires |table| == 3 && NoDup(table)
    ensures table == [table[0], table[1], table[2]] && Shipped.Three(table[0], table[1], table[2])
  {
  }

  lemma AtBoot(a: Pcb, b: Pcb, c: Pcb, base: nat)
    requires Shipped.Three(a, b, c)
    ensures Booted([a, b, c], base, false, map[], Shipped.NOW).k.pcbs == {a, b, c}
  {
    Shipped.Step0(a, b, c, base);
    Shipped.SameBlocks(a, b, c, base);
    hide *;
  }

  lemma AtLast(a: Pcb, b: Pcb, c: Pcb, base: nat)
    requires Shipped.Three(a, b, c) && base > NULL
    ensures var s := Shipped.Still(a, b, c, Shipped.Kern7(a, b, c, base), false, QUANTUM, Running, 5);
      && s.mode == Running && !s.k.wash && s.k.free == [c, b] && Tag(s.k, c) != NULL && s.k.pcbs == {a, b, c} &&
         s.k.procCount == 1
      && Nucleus.Family(s.k) == [a]
  {
    Shipped.Stale(a, b, c, base);
    Shipped.SameBlocks(a, b, c, base);
    assert KidsOf(Shipped.Tree1(a), a) == Nil && Post(Nil) == [];
  }

  lemma Stood(k: Kernel)
    requires k.Valid()
    ensures k.processCount == k.M.k.procCount && k.mode == k.M.mode && k.wash == k.M.k.wash
  {
    hide Inv, Kernel.Heap, NoDup;
  }
}
