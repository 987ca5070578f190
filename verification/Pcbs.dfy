/** Process control blocks and the lists threaded through them: circular doubly
    linked process queues with a tail pointer, and sibling lists. */
module Pcbs {
  import opened Sequences

  /** NULL, as a semaphore address or as the address of a trap area. */
  const NULL: nat := 0

  class Pcb {
    var next: Pcb?
    var prev: Pcb?
    var prnt: Pcb?
    var child: Pcb?
    var nextSib: Pcb?
    var prevSib: Pcb?
    var oldSys: nat
    var newSys: nat
    var oldPrgm: nat
    var newPrgm: nat
    var oldTlb: nat
    var newTlb: nat
    var time: int
    var semAdd: nat

    constructor ()
      ensures semAdd == NULL
    {
      next, prev, prnt, child, nextSib, prevSib := null, null, null, null, null, null;
      oldSys, newSys, oldPrgm, newPrgm, oldTlb, newTlb := NULL, NULL, NULL, NULL, NULL, NULL;
      time, semAdd := 0, NULL;
    }
  }

  // ---------------------------------------------------------------- queues

  /** The queue with tail pointer `tp` holds exactly `q`, head first. */
  ghost predicate IsQueue(tp: Pcb?, q: seq<Pcb>)
    reads q`next, q`prev
  {
    && NoDup(q)
    && if q == [] then tp == null else
         && tp == q[|q| - 1]
         && q[|q| - 1].next == q[0]
         && q[0].prev == q[|q| - 1]
         && (forall i {:trigger q[i].next} :: 0 <= i < |q| - 1 ==> q[i].next == q[i + 1])
         && (forall i {:trigger q[i].prev} :: 0 < i < |q| ==> q[i].prev == q[i - 1])
  }

  method InsertProcQ(tp: Pcb?, p: Pcb, ghost q: seq<Pcb>) returns (tail: Pcb)
    requires IsQueue(tp, q) && p !in q
    modifies p`next, p`prev, q`next, q`prev
    ensures tail == p
    ensures IsQueue(tail, q + [p])
  {
    if tp == null {
      p.next := p;
      p.prev := p;
    } else {
      p.next := tp.next;
      tp.next.prev := p;
      tp.next := p;
      p.prev := tp;
    }
    tail := p;
  }

  method HeadProcQ(tp: Pcb?, ghost q: seq<Pcb>) returns (head: Pcb?)
    requires IsQueue(tp, q)
    ensures head == if q == [] then null else q[0]
  {
    if tp == null {
      return null;
    }
    head := tp.next;
  }

  /** What unweaving the node at index `k` leaves behind is the queue without it. */
  lemma Unwoven(q: seq<Pcb>, k: nat)
    requires NoDup(q) && k < |q| && |q| > 1
    requires forall i {:trigger q[i].next} :: 0 <= i < |q| - 1 && i != k && i + 1 != k ==> q[i].next == q[i + 1]
    requires forall i {:trigger q[i].prev} :: 0 < i < |q| && i != k && i - 1 != k ==> q[i].prev == q[i - 1]
    requires 0 < k < |q| - 1 ==> q[k - 1].next == q[k + 1] && q[k + 1].prev == q[k - 1]
    requires var first := if k == 0 then 1 else 0;
             var last := if k == |q| - 1 then k - 1 else |q| - 1;
             q[last].next == q[first] && q[first].prev == q[last]
    ensures IsQueue(if k == |q| - 1 then q[k - 1] else q[|q| - 1], q[..k] + q[k + 1..])
  {
  }

  method UnweaveTail(p: Pcb, ghost q: seq<Pcb>)
    requires IsQueue(p, q) && |q| > 1
    modifies q`next, q`prev
    ensures IsQueue(q[|q| - 2], q[..|q| - 1] + q[|q| - 1 + 1..])
  {
    p.prev.next := p.next;
    p.next.prev := p.prev;
    Unwoven(q, |q| - 1);
  }

  method Unweave(p: Pcb, ghost q: seq<Pcb>, ghost k: nat)
    requires 0 <= k < |q| - 1 && IsQueue(q[|q| - 1], q) && p == q[k]
    modifies q`next, q`prev
    ensures IsQueue(q[|q| - 1], q[..k] + q[k + 1..])
  {
    p.prev.next := p.next;
    p.next.prev := p.prev;
    p.prev := null;
    p.next := null;
    Unwoven(q, k);
  }

  /** Deletes `p` wherever it is; answers null exactly when it is not there. */
  method OutProcQ(tp: Pcb?, p: Pcb, ghost q: seq<Pcb>) returns (tail: Pcb?, out: Pcb?)
    requires IsQueue(tp, q)
    modifies q`next, q`prev
    ensures out == if p in q then p else null
    ensures IsQueue(tail, Without(q, {p}))
    ensures p !in q ==> tail == tp && forall x :: x in q ==> unchanged(x)
  {
    tail := tp;
    if tp == null {
      return tail, null;
    }
    ghost var n := |q|;
    if p == tp {
      WithoutAt(q, n - 1);
      if tp.next != tp {
        tail := tp.prev;
        UnweaveTail(tp, q);
      } else {
        assert n == 1;
        tail := null;
      }
      return tail, p;
    }
    var cursor := tp.next;
    ghost var k := 0;
    while cursor != tp && cursor != p
      invariant 0 <= k < n && cursor == q[k]
      invariant forall i :: 0 <= i < k ==> q[i] != p
      decreases n - k
    {
      cursor := cursor.next;
      k := k + 1;
    }
    if cursor == tp {
      WithoutNothing(q, {p});
      return tail, null;
    }
    WithoutAt(q, k);
    Unweave(cursor, q, k);
    return tail, cursor;
  }

  method RemoveProcQ(tp: Pcb?, ghost q: seq<Pcb>) returns (tail: Pcb?, out: Pcb?)
    requires IsQueue(tp, q)
    modifies q`next, q`prev
    ensures out == if q == [] then null else q[0]
    ensures IsQueue(tail, if q == [] then [] else q[1..])
  {
    if tp == null {
      return null, null;
    }
    WithoutAt(q, 0);
    assert q[..0] + q[0 + 1..] == q[1..];
    tail, out := OutProcQ(tp, tp.next, q);
  }

  // --------------------------------------------------------- sibling lists

  /** The children of `parent` are exactly `kids`, newest first. */
  ghost predicate IsFamily(parent: Pcb, kids: seq<Pcb>)
    reads parent`child, kids`prnt, kids`nextSib, kids`prevSib
  {
    && NoDup(kids)
    && parent.child == (if kids == [] then null else kids[0])
    && (forall i {:trigger kids[i].prnt} :: 0 <= i < |kids| ==> kids[i].prnt == parent)
    && (forall i {:trigger kids[i].prevSib} :: 0 <= i < |kids| - 1 ==> kids[i].prevSib == kids[i + 1])
    && (forall i {:trigger kids[i].nextSib} :: 0 < i < |kids| ==> kids[i].nextSib == kids[i - 1])
    && (kids != [] ==> kids[0].nextSib == null && kids[|kids| - 1].prevSib == null)
  }

  method InsertChild(parent: Pcb, p: Pcb, ghost kids: seq<Pcb>)
    requires IsFamily(parent, kids) && p !in kids
    modifies parent`child, Elements(kids)`nextSib, p`prnt, p`nextSib, p`prevSib
    ensures IsFamily(parent, [p] + kids)
  {
    if parent.child == null {
      p.prevSib := null;
    } else {
      parent.child.nextSib := p;
      p.prevSib := parent.child;
    }
    p.nextSib := null;
    parent.child := p;
    p.prnt := parent;
  }

  /** Takes the newest child off: last in, first out. */
  method RemoveChild(parent: Pcb, ghost kids: seq<Pcb>) returns (out: Pcb?)
    requires IsFamily(parent, kids)
    modifies parent`child, Elements(kids)`prnt, Elements(kids)`nextSib, Elements(kids)`prevSib
    ensures out == if kids == [] then null else kids[0]
    ensures IsFamily(parent, if kids == [] then [] else kids[1..])
    ensures out != null ==> out.prnt == null && out.nextSib == null && out.prevSib == null
    ensures forall x :: x in kids && x != out ==> x.prnt == old(x.prnt)
  {
    if parent.child == null {
      return null;
    }
    out := parent.child;
    if out.prevSib == null {
      assert |kids| == 1;
      out.prnt := null;
      parent.child := null;
      return;
    }
    parent.child := out.prevSib;
    out.prevSib.nextSib := null;
    out.prevSib := null;
    out.prnt := null;
  }

  /** What unweaving the older child at index `k` leaves behind. */
  lemma UnwovenChild(parent: Pcb, kids: seq<Pcb>, k: nat)
    requires NoDup(kids) && 0 < k < |kids|
    requires parent.child == kids[0]
    requires forall i {:trigger kids[i].prnt} :: 0 <= i < |kids| && i != k ==> kids[i].prnt == parent
    requires forall i {:trigger kids[i].prevSib} ::
      0 <= i < |kids| - 1 && i != k && i + 1 != k ==> kids[i].prevSib == kids[i + 1]
    requires forall i {:trigger kids[i].nextSib} ::
      0 < i < |kids| && i != k && i - 1 != k ==> kids[i].nextSib == kids[i - 1]
    requires k + 1 < |kids| ==>
      kids[k - 1].prevSib == kids[k + 1] && kids[k + 1].nextSib == kids[k - 1] && kids[|kids| - 1].prevSib == null
    requires k + 1 == |kids| ==> kids[k - 1].prevSib == null
    requires kids[0].nextSib == null
    ensures IsFamily(parent, kids[..k] + kids[k + 1..])
  {
  }

  method UnweaveChild(ghost parent: Pcb, p: Pcb, ghost kids: seq<Pcb>, ghost k: nat)
    requires 0 < k < |kids| && IsFamily(parent, kids) && p == kids[k]
    modifies Elements(kids)`nextSib, Elements(kids)`prevSib, p`prnt
    ensures IsFamily(parent, kids[..k] + kids[k + 1..])
    ensures p.prnt == null
  {
    if p.prevSib == null {
      p.nextSib.prevSib := null;
    } else {
      p.nextSib.prevSib := p.prevSib;
      p.prevSib.nextSib := p.nextSib;
      p.prevSib := null;
    }
    p.nextSib := null;
    p.prnt := null;
    UnwovenChild(parent, kids, k);
  }

  /** Takes `p` out of its parent's children, wherever it stands among them. */
  method OutChild(p: Pcb, ghost kids: seq<Pcb>) returns (out: Pcb?)
    requires p.prnt != null ==> IsFamily(p.prnt, kids) && p in kids
    requires p.prnt == null ==> kids == []
    modifies (if p.prnt == null then {} else {p.prnt})`child
    modifies Elements(kids)`prnt, Elements(kids)`nextSib, Elements(kids)`prevSib
    ensures out == if old(p.prnt) == null then null else p
    ensures old(p.prnt) != null ==> IsFamily(old(p.prnt), Without(kids, {p})) && p.prnt == null
    ensures forall x :: x in kids && x != p ==> x.prnt == old(x.prnt)
  {
    if p.prnt == null {
      return null;
    }
    ghost var k :| 0 <= k < |kids| && kids[k] == p;
    WithoutAt(kids, k);
    if p == p.prnt.child {
      out := RemoveChild(p.prnt, kids);
      return;
    }
    hide NoDup, Without;
    UnweaveChild(p.prnt, p, kids, k);
    return p;
  }
}
