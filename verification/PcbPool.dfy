/** The free list of process control blocks. */
module PcbPool {
  import opened Sequences
  import opened Pcbs

  /** All links, trap vectors and the time sheet are blank. */
  ghost predicate Washed(p: Pcb)
    reads p`prnt, p`child, p`nextSib, p`prevSib, p`time
    reads p`oldSys, p`newSys, p`oldPrgm, p`newPrgm, p`oldTlb, p`newTlb
  {
    && p.prnt == null && p.child == null && p.nextSib == null && p.prevSib == null
    && p.time == 0
    && p.oldSys == p.newSys == p.oldPrgm == p.newPrgm == p.oldTlb == p.newTlb == NULL
  }

  /** Blanks everything a freed or fresh block must not carry over. */
  method WashDishes(p: Pcb)
    modifies p`next, p`prev, p`prnt, p`child, p`nextSib, p`prevSib, p`time
    modifies p`oldSys, p`newSys, p`oldPrgm, p`newPrgm, p`oldTlb, p`newTlb
    ensures Washed(p)
  {
    p.next, p.prev := null, null;
    p.prnt, p.child, p.nextSib, p.prevSib := null, null, null, null;
    p.time := 0;
    p.oldSys, p.newSys, p.oldPrgm, p.newPrgm, p.oldTlb, p.newTlb := NULL, NULL, NULL, NULL, NULL, NULL;
  }

  class Pool {
    var tail: Pcb?
    ghost var free: seq<Pcb>

    ghost predicate Valid()
      reads this, free`next, free`prev
    {
      IsQueue(tail, free)
    }

    /** Builds the table of `n` blocks and frees each of them. */
    constructor InitPcbs(n: nat)
      ensures Valid() && fresh(this) && |free| == n
      ensures fresh(free) && forall p :: p in free ==> Washed(p) && p.semAdd == NULL
    {
      tail, free := null, [];
      new;
      var i := 0;
      while i < n
        invariant i <= n && |free| == i && Valid()
        invariant fresh(free)
        invariant forall p :: p in free ==> Washed(p) && p.semAdd == NULL
      {
        var p := new Pcb();
        ghost var before := free;
        FreePcb(p, false);
        assert forall x :: x in free ==> x in before || x == p;
        i := i + 1;
      }
    }

    /** Appends `p` to the free list with its fields blanked. As shipped the
        blanking skips `semAdd`; `wash` says whether it is repaired. */
    method FreePcb(p: Pcb, wash: bool)
      requires Valid() && p !in free
      modifies this, p, free`next, free`prev
      ensures Valid() && free == old(free) + [p]
      ensures Washed(p) && p.semAdd == if wash then NULL else old(p.semAdd)
    {
      WashDishes(p);
      if wash {
        p.semAdd := NULL;
      }
      tail := InsertProcQ(tail, p, free);
      free := free + [p];
    }

    /** Takes the block that has been free longest, or null when there is none. */
    method AllocPcb() returns (p: Pcb?)
      requires Valid()
      modifies this, free`next, free`prev
      modifies (if free == [] then {} else {free[0]})
      ensures Valid()
      ensures old(free) == [] ==> p == null && free == []
      ensures old(free) != [] ==> p == old(free)[0] && free == old(free)[1..]
      ensures p != null ==> p !in free && Washed(p) && p.semAdd == old(p.semAdd)
    {
      tail, p := RemoveProcQ(tail, free);
      if p != null {
        TailNoDup(free);
        free := free[1..];
        WashDishes(p);
      }
    }
  }
}
