/** The active semaphore list: descriptors sorted by address behind a dummy
    head, each with the queue of processes blocked on it, and a free stack. */
module Asl {
  import opened Sequences
  import opened Pcbs

  class Semd {
    var next: Semd?
    var semAdd: nat
    var procQ: Pcb?
    ghost var waiting: seq<Pcb>   // what `procQ` holds, head first

    constructor ()
    {
      next, semAdd, procQ, waiting := null, NULL, null, [];
    }

    /** The queue is not empty, and each of its members is tagged with the address. */
    ghost predicate Good()
      reads this`procQ, this`waiting, this`semAdd, waiting`next, waiting`prev, waiting`semAdd
    {
      && waiting != []
      && IsQueue(procQ, waiting)
      && forall j :: 0 <= j < |waiting| ==> waiting[j].semAdd == semAdd
    }

    /** Work on other descriptors and other processes leaves the queue as it was. */
    twostate lemma StaysGood()
      requires old(Good())
      requires procQ == old(procQ) && waiting == old(waiting) && semAdd == old(semAdd)
      requires forall j :: 0 <= j < |waiting| ==>
        var p := waiting[j]; p.next == old(p.next) && p.prev == old(p.prev) && p.semAdd == old(p.semAdd)
      ensures Good()
    {
    }

    method Start(a: nat, p: Pcb)
      modifies this`semAdd, this`procQ, this`waiting, p`next, p`prev, p`semAdd
      ensures Good() && waiting == [p] && semAdd == p.semAdd == a
    {
      semAdd := a;
      p.semAdd := semAdd;
      procQ := InsertProcQ(null, p, []);
      waiting := [p];
    }

    method Append(p: Pcb)
      requires Good() && p !in waiting
      modifies this`procQ, this`waiting, p`next, p`prev, p`semAdd, waiting`next, waiting`prev
      ensures Good() && waiting == old(waiting) + [p]
    {
      procQ := InsertProcQ(procQ, p, waiting);
      p.semAdd := semAdd;
      waiting := waiting + [p];
    }

    /** Takes `p` out, if it is here; the queue may be left empty. */
    method TakeOut(p: Pcb) returns (out: Pcb?)
      requires Good()
      modifies this`procQ, this`waiting, waiting`next, waiting`prev
      ensures out == if p in old(waiting) then p else null
      ensures waiting == Without(old(waiting), {p})
      ensures out == null ==> waiting == old(waiting)
      ensures procQ == null <==> waiting == []
      ensures waiting != [] ==> Good()
    {
      hide IsQueue, NoDup, Without;
      procQ, out := OutProcQ(procQ, p, waiting);
      Survivors(waiting, p, semAdd);
      if out == null {
        WithoutNothing(waiting, {p});
      }
      waiting := Without(waiting, {p});
      NoTail(procQ, waiting);
    }

    /** Takes the process that has waited longest. */
    method TakeFirst() returns (out: Pcb)
      requires Good()
      modifies this`procQ, this`waiting, waiting`next, waiting`prev
      ensures out == old(waiting)[0] && waiting == old(waiting)[1..] && out !in waiting
      ensures procQ == null <==> waiting == []
      ensures waiting != [] ==> Good()
    {
      procQ, out := RemoveProcQ(procQ, waiting);
      waiting := waiting[1..];
      assert waiting != [] ==> IsQueue(procQ, waiting);
    }
  }

  lemma NoTail(tp: Pcb?, q: seq<Pcb>)
    requires IsQueue(tp, q)
    ensures tp == null <==> q == []
  {
  }

  lemma Survivors(q: seq<Pcb>, p: Pcb, a: nat)
    requires forall j :: 0 <= j < |q| ==> q[j].semAdd == a
    ensures var r := Without(q, {p}); forall j :: 0 <= j < |r| ==> r[j].semAdd == a
  {
    var r := Without(q, {p});
    forall j | 0 <= j < |r| ensures r[j].semAdd == a {
      assert r[j] in q;
    }
  }

  /** The free stack from `top` is exactly `s`. */
  ghost predicate IsStack(top: Semd?, s: seq<Semd>)
    reads s`next
  {
    if s == [] then top == null else
      top == s[0] && top !in s[1..] && IsStack(top.next, s[1..])
  }

  /** `b` is the least of `keys` above `low`. */
  ghost predicate IsLeastAbove(keys: set<nat>, low: int, b: nat) {
    b in keys && low < b && forall c :: c in keys && low < c ==> b <= c
  }

  /** The least of `keys` above `low`, or -1 when there is none. */
  ghost function LeastAbove(keys: set<nat>, low: int): (b: int)
    ensures b == -1 ==> forall c :: c in keys ==> c <= low
    ensures b != -1 ==> 0 <= b && IsLeastAbove(keys, low, b)
  {
    if b: nat :| IsLeastAbove(keys, low, b) then b else SomeAbove(keys, low); -1
  }

  lemma SomeAbove(keys: set<nat>, low: int)
    ensures (exists b: nat :: IsLeastAbove(keys, low, b)) || forall c :: c in keys ==> c <= low
  {
    var above := set c | c in keys && low < c;
    assert forall c :: c in keys && low < c ==> c in above;
    if above != {} {
      var b := Least(above);
      assert IsLeastAbove(keys, low, b);
    }
  }

  lemma {:induction false} Least(keys: set<nat>) returns (b: nat)
    requires keys != {}
    ensures b in keys && forall c :: c in keys ==> b <= c
  {
    var x :| x in keys;
    b := x;
    var rest := keys - {x};
    assert forall c :: c in keys ==> c == x || c in rest;
    if rest != {} {
      var y := Least(rest);
      b := if y < x then y else x;
    }
  }

  /** How a new address `a` just above `low` changes what is least above what. */
  lemma LeastAboveWith(keys: set<nat>, low: int, a: nat)
    requires a !in keys && low < a && (low in keys || low == -1)
    requires forall b :: b in keys && low < b ==> a <= b
    ensures LeastAbove(keys + {a}, low) == a
    ensures LeastAbove(keys + {a}, a) == LeastAbove(keys, low)
    ensures forall c: int {:trigger LeastAbove(keys, c)} ::
      (c in keys || c == -1) && c != low ==> LeastAbove(keys + {a}, c) == LeastAbove(keys, c)
  {
  }

  /** The queue blocked on address `a`; an address without a descriptor has none. */
  ghost function Waiting(queues: map<nat, seq<Pcb>>, a: nat): seq<Pcb> {
    if a in queues then queues[a] else []
  }

  ghost predicate Members(queues: map<nat, seq<Pcb>>, blocked: set<Pcb>) {
    forall a, j {:trigger queues[a][j]} :: a in queues && 0 <= j < |queues[a]| ==> queues[a][j] in blocked
  }

  /** Each blocked process waits on the address it is tagged with. */
  ghost predicate Tagged(queues: map<nat, seq<Pcb>>, blocked: set<Pcb>)
    reads blocked`semAdd
  {
    forall p {:trigger p in blocked} :: p in blocked ==> p.semAdd in queues && p in queues[p.semAdd]
  }

  /** The map once the queue of `a` has become `q`: no empty queue stays listed. */
  ghost function Requeue(queues: map<nat, seq<Pcb>>, a: nat, q: seq<Pcb>): map<nat, seq<Pcb>> {
    if q == [] then queues - {a} else queues[a := q]
  }

  class List {
    const capacity: nat
    var free: Semd?
    var active: Semd                    // the dummy head
    ghost const table: set<Semd>        // semdTable
    ghost var spare: seq<Semd>          // the free stack, top first
    ghost var listed: map<nat, Semd>    // the active descriptors by address
    ghost var queues: map<nat, seq<Pcb>>
    ghost var blocked: set<Pcb>

    ghost predicate Valid()
      reads this, table, blocked`next, blocked`prev, blocked`semAdd
    {
      && Stacked()
      && |listed| + |spare| == capacity
      && Linked()
      && Queued({})
    }

    ghost predicate Stacked()
      reads this`free, this`spare, table`next
    {
      && (forall x :: x in spare ==> x in table)
      && IsStack(free, spare)
    }

    /** The active list is strictly sorted and apart from the free stack. */
    ghost predicate Linked()
      reads this`active, this`spare, this`listed, table`next, table`semAdd
    {
      && active in table && active !in spare
      && (forall a :: a in listed ==> listed[a] in table && listed[a] !in spare && listed[a] != active)
      && (forall a :: a in listed ==> listed[a].semAdd == a)
      && active.next == Next(-1)
      && (forall a {:trigger listed[a].next} :: a in listed ==> listed[a].next == Next(a))
    }

    /** What the link of the node at address `low` must be, for the list to be
        strictly sorted: the descriptor of the least listed address above. */
    ghost function Next(low: int): Semd?
      reads this`listed
    {
      var b := LeastAbove(listed.Keys, low);
      if b == -1 then null else listed[b]
    }

    /** Work on descriptors that are not listed leaves the active list as it was. */
    twostate lemma ActiveStays()
      requires old(Linked() && Queued({}))
      requires active == old(active) && listed == old(listed)
      requires queues == old(queues) && blocked == old(blocked)
      requires forall x :: x in spare ==> x in old(spare)
      requires active.next == old(active.next)
      requires forall b {:trigger listed[b]} :: b in listed ==> var n := listed[b];
        && n.next == old(n.next) && n.semAdd == old(n.semAdd)
        && n.procQ == old(n.procQ) && n.waiting == old(n.waiting)
      requires forall p {:trigger p in blocked} :: p in blocked ==>
        p.next == old(p.next) && p.prev == old(p.prev) && p.semAdd == old(p.semAdd)
      ensures Linked() && Queued({})
    {
      hide IsQueue, Next;
      forall b | b in listed
        ensures listed[b].Good()
      {
        assert old(listed[b].Good());
        assert forall j :: 0 <= j < |listed[b].waiting| ==> listed[b].waiting[j] == queues[b][j];
        listed[b].StaysGood();
      }
    }

    /** Only the queue of address `a`, and processes tagged with `a`, have changed. */
    twostate predicate OthersAlone(a: nat)
      requires forall b :: b in listed && b != a ==> b in old(listed) && listed[b] == old(listed[b])
      reads *
    {
      && (forall b {:trigger listed[b]} :: b in listed && b != a ==>
            && listed[b] in table && listed[b].semAdd == b
            && listed[b].procQ == old(listed[b].procQ) && listed[b].waiting == old(listed[b].waiting))
      && (forall p {:trigger p in old(blocked)} :: p in old(blocked) && old(p.semAdd) != a ==>
            p.next == old(p.next) && p.prev == old(p.prev) && p.semAdd == old(p.semAdd))
    }

    /** Work on the queue of address `a` leaves the other queues as they were. */
    twostate lemma OthersStay(a: nat)
      requires old(Queued({}))
      requires forall b :: b in listed && b != a ==> b in old(listed) && listed[b] == old(listed[b])
      requires OthersAlone(a)
      ensures forall b {:trigger listed[b]} :: b in listed && b != a ==> listed[b].Good()
    {
      forall b | b in listed && b != a
        ensures listed[b].Good()
      {
        var n := listed[b];
        assert old(n.Good());
        forall j | 0 <= j < |n.waiting|
          ensures n.waiting[j] in old(blocked) && old(n.waiting[j].semAdd) == b
        {
          assert old(queues[b][j]) in old(blocked);
        }
        n.StaysGood();
      }
    }

    /** Every descriptor, but perhaps those in `gap`, holds a proper queue. */
    ghost predicate Queued(gap: set<nat>)
      reads this`listed, this`queues, this`blocked
      reads table`semAdd, table`procQ, table`waiting, blocked`next, blocked`prev, blocked`semAdd
    {
      && queues.Keys == listed.Keys
      && (forall a :: a in listed ==> listed[a] in table && queues[a] == listed[a].waiting && listed[a].semAdd == a)
      && Members(queues, blocked)
      && Tagged(queues, blocked)
      && (forall a {:trigger listed[a]} :: a in listed && a !in gap ==> listed[a].Good())
    }

    /** `prev` is the dummy (`low` is -1) or the descriptor of address `low`. */
    ghost predicate Below(prev: Semd, low: int)
      reads this`active, this`listed
    {
      if low == -1 then prev == active else low in listed && prev == listed[low]
    }

    /** The node of `low` is the last one below address `a`. */
    ghost predicate At(prev: Semd, low: int, a: nat)
      reads this`listed, prev`next, (if prev.next == null then {} else {prev.next})`semAdd
    {
      && low < a && prev.next == Next(low)
      && (prev.next != null ==>
            a <= prev.next.semAdd && prev.next.semAdd in listed && listed[prev.next.semAdd] == prev.next)
    }

    constructor InitASL(maxProc: nat)
      ensures Valid() && fresh(this) && fresh(table) && capacity == maxProc
      ensures queues == map[] && blocked == {}
    {
      var semdTable: seq<Semd> := [];
      var i := 0;
      while i < maxProc + 1
        invariant i <= maxProc + 1 && |semdTable| == i && NoDup(semdTable)
        invariant forall j :: 0 <= j < i ==> fresh(semdTable[j]) && allocated(semdTable[j])
      {
        var semd := new Semd();
        semdTable := semdTable + [semd];
        i := i + 1;
      }
      capacity, table := maxProc, Elements(semdTable);
      free, spare := null, [];
      listed, queues, blocked := map[], map[], {};
      active := semdTable[0];
      new;
      hide IsStack;
      i := 0;
      while i < maxProc + 1
        invariant i <= maxProc + 1 && |spare| == i
        invariant Stacked() && forall x :: x in spare ==> x in semdTable[..i]
        invariant listed == map[] && queues == map[] && blocked == {}
      {
        FreeSemd(semdTable[i]);
        i := i + 1;
      }
      InstallDummy();
    }

    method InstallDummy()
      requires Stacked() && |spare| == capacity + 1 && listed == map[] && queues == map[] && blocked == {}
      modifies this`free, this`spare, this`active, table
      ensures Valid()
    {
      assert spare[0] in spare;
      active := AllocSemd();
      active.next := null;
      active.semAdd := NULL;
    }

    method FreeSemd(semd: Semd)
      requires IsStack(free, spare) && semd !in spare
      modifies this`free, this`spare, semd`next
      ensures IsStack(free, spare) && spare == [semd] + old(spare)
    {
      if free == null {
        free := semd;
        free.next := null;
      } else {
        semd.next := free;
        free := semd;
      }
      spare := [semd] + spare;
    }

    method AllocSemd() returns (semd: Semd?)
      requires IsStack(free, spare)
      modifies this`free, this`spare, (if spare == [] then {} else {spare[0]})
      ensures IsStack(free, spare)
      ensures old(spare) == [] ==> semd == null && spare == []
      ensures old(spare) != [] ==> semd == old(spare)[0] && spare == old(spare)[1..]
      ensures semd != null ==> semd !in spare && semd.next == null && semd.procQ == null && semd.semAdd == NULL
    {
      if free == null {
        return null;
      }
      semd := free;
      if free.next == null {
        free := null;
      } else {
        free := free.next;
        semd.next := null;
      }
      semd.procQ := null;
      semd.next := null;
      semd.semAdd := NULL;
      spare := spare[1..];
    }

    /** The last descriptor, or the dummy, below address `a`. */
    method GetPrevSemd(a: nat) returns (prev: Semd, ghost low: int)
      requires Linked()
      ensures Below(prev, low) && At(prev, low, a)
      ensures a in listed <==> prev.next != null && prev.next.semAdd == a
      ensures a in listed ==> prev.next == listed[a]
    {
      prev, low := active, -1;
      ghost var beyond := listed.Keys;
      while prev.next != null && prev.next.semAdd < a
        invariant Below(prev, low)
        invariant low < a && prev.next == Next(low)
        invariant forall b :: b in listed && low < b ==> b in beyond
        decreases beyond
      {
        prev, low := prev.next, prev.next.semAdd;
        beyond := beyond - {low};
      }
    }

    /** Weaves `semd` in behind `prev`, the last descriptor below its address. */
    method Link(prev: Semd, ghost low: int, semd: Semd)
      requires Linked() && semd in table && semd !in spare && semd != active
      requires semd.semAdd !in listed && forall a :: a in listed ==> listed[a] != semd
      requires Below(prev, low)
      requires low < semd.semAdd && prev.next == Next(low)
      requires prev.next != null ==> semd.semAdd <= prev.next.semAdd
      modifies this`listed, prev`next, semd`next
      ensures listed == old(listed)[semd.semAdd := semd]
      ensures Linked()
    {
      ghost var a := semd.semAdd;
      LeastAboveWith(listed.Keys, low, a);
      semd.next := prev.next;
      prev.next := semd;
      ghost var before := listed;
      listed := listed[a := semd];
      assert listed.Keys == before.Keys + {a};
    }

    /** Unweaves the descriptor behind `prev`. */
    method Unlink(prev: Semd, ghost low: int) returns (semd: Semd)
      requires Linked()
      requires Below(prev, low)
      requires prev.next != null
      modifies this`listed, prev`next, prev.next`next
      ensures semd == old(prev.next) && semd.semAdd in old(listed) && Unlisted(semd)
      ensures listed == old(listed) - {semd.semAdd}
      ensures Linked()
    {
      semd := prev.next;
      ghost var a := semd.semAdd;
      LeastAboveWith(listed.Keys - {a}, low, a);
      assert listed.Keys - {a} + {a} == listed.Keys;
      prev.next := semd.next;
      semd.next := null;
      ghost var before := listed;
      listed := listed - {a};
      assert listed.Keys == before.Keys - {a};
    }

    /** Whoever was blocked on another address still is, and on `a` now wait
        exactly the members of its descriptor's queue. */
    twostate lemma Requeued(a: nat)
      requires old(Queued({})) && a in listed && listed == old(listed)[a := listed[a]] && OthersAlone(a)
      requires var n := listed[a]; n in table && n.semAdd == a && queues == old(queues)[a := n.waiting]
      requires listed[a].waiting != [] ==> listed[a].Good()
      requires forall p :: p in blocked <==> (p in old(blocked) && old(p.semAdd) != a) || p in listed[a].waiting
      ensures Queued(if listed[a].waiting == [] then {a} else {})
    {
      hide IsQueue;
      OthersStay(a);
      var q := listed[a].waiting;
      forall b, j | b in queues && 0 <= j < |queues[b]|
        ensures queues[b][j] in blocked && queues[b][j].semAdd == b
      {
        assert b != a ==> listed[b].Good() && old(listed[b].Good()) && old(queues[b][j]) in old(blocked);
      }
      forall p | p in blocked
        ensures p.semAdd in queues && p in queues[p.semAdd]
      {
        if p in q {
          assert p.semAdd == a;
        }
      }
    }

    /** Appends `p` to the queue of the listed address `a`. */
    method Enqueue(semd: Semd, a: nat, p: Pcb)
      requires Queued({}) && a in listed && semd == listed[a] && p !in blocked
      modifies this`queues, this`blocked, semd`procQ, semd`waiting
      modifies p`next, p`prev, p`semAdd, blocked`next, blocked`prev
      ensures Queued({}) && p.semAdd == a
      ensures queues == old(queues)[a := old(queues)[a] + [p]]
      ensures blocked == old(blocked) + {p}
    {
      hide IsQueue, Semd.Good, Members, Tagged, NoDup;
      Owned(a);
      WhoWaits(a);
      semd.Append(p);
      queues := queues[a := queues[a] + [p]];
      blocked := blocked + {p};
      Requeued(a);
    }

    /** Starts a queue for `a` holding `p` alone, in the unused descriptor `semd`. */
    method Populate(semd: Semd, a: nat, p: Pcb, prev: Semd, ghost low: int)
      requires Linked() && Queued({}) && p !in blocked && a !in listed
      requires Unlisted(semd)
      requires Below(prev, low) && At(prev, low, a)
      modifies this`listed, this`queues, this`blocked, semd, prev`next, p`next, p`prev, p`semAdd
      ensures Linked() && Queued({}) && p.semAdd == a
      ensures listed == old(listed)[a := semd]
      ensures queues == old(queues)[a := [p]] && blocked == old(blocked) + {p}
    {
      hide IsQueue, Semd.Good, Linked, Next, Members, Tagged, IsStack, LeastAbove, NoDup;
      WhoWaits(a);
      semd.Start(a, p);
      ActiveStays();
      queues := queues[a := [p]];
      blocked := blocked + {p};
      Link(prev, low, semd);
      hide Below, At;
      assert OthersAlone(a);
      hide OthersAlone, Unlisted;
      Requeued(a);
    }

    /** Takes a descriptor from the free stack, unless there is none. */
    method TakeSpare() returns (semd: Semd?)
      requires Valid()
      modifies this`free, this`spare, (if spare == [] then {} else {spare[0]})
      ensures Stacked() && Linked() && Queued({})
      ensures semd == null <==> |queues| == capacity
      ensures semd == null ==> spare == old(spare)
      ensures semd != null ==> |listed| + 1 + |spare| == capacity && Unlisted(semd)
      ensures semd != null ==> old(spare) != [] && semd == old(spare)[0]
    {
      hide IsQueue, Next, Semd.Good, IsStack;
      SameSize();
      assert spare != [] ==> spare[0] in spare;
      semd := AllocSemd();
      ActiveStays();
    }

    ghost predicate Unlisted(semd: Semd)
      reads this`spare, this`active, this`listed
    {
      semd in table && semd !in spare && semd != active && forall b :: b in listed ==> listed[b] != semd
    }

    /** Starts a queue for `a`, unless no descriptor is left. */
    method Open(a: nat, p: Pcb, prev: Semd, ghost low: int) returns (full: bool)
      requires Valid() && p !in blocked && a !in listed
      requires Below(prev, low) && At(prev, low, a)
      modifies this`free, this`spare, this`listed, this`queues, this`blocked, table
      modifies p`next, p`prev, p`semAdd
      ensures Valid()
      ensures full <==> |old(queues)| == capacity
      ensures full ==> queues == old(queues) && blocked == old(blocked) && p.semAdd == old(p.semAdd)
      ensures !full ==> queues == old(queues)[a := [p]] && blocked == old(blocked) + {p} && p.semAdd == a
    {
      hide IsQueue, Next, Semd.Good, IsStack, Queued;
      Apart(prev, low, a);
      var semd := TakeSpare();
      if semd == null {
        return true;
      }
      Populate(semd, a, p, prev, low);
      return false;
    }

    lemma Apart(prev: Semd, low: int, a: nat)
      requires Linked() && Below(prev, low) && At(prev, low, a)
      ensures prev in table && prev !in spare && (prev.next != null ==> prev.next !in spare)
      ensures spare != [] ==> spare[0] != prev && spare[0] != prev.next
    {
      assert spare != [] ==> spare[0] in spare;
    }

    lemma Owned(a: nat)
      requires Queued({}) && a in listed
      ensures listed[a] in table && forall j :: 0 <= j < |listed[a].waiting| ==> listed[a].waiting[j] in blocked
    {
      assert forall j :: 0 <= j < |queues[a]| ==> queues[a][j] in blocked;
    }

    lemma InQueue(a: nat)
      requires Valid() && a in queues
      ensures queues[a] != [] && forall p :: p in queues[a] ==> p in blocked
    {
      assert listed[a].Good();
    }

    /** Who is in the queue of `a`: those who are blocked and tagged with it. */
    lemma WhoWaits(a: nat)
      requires Queued({})
      ensures a in listed ==> a in queues && queues[a] == listed[a].waiting != [] && listed[a].Good()
      ensures forall p :: p in blocked && p.semAdd == a <==> a in listed && p in listed[a].waiting
    {
      hide IsQueue;
      if a in listed {
        var q := listed[a].waiting;
        assert queues[a] == q && listed[a].Good() && listed[a].semAdd == a;
        forall p | p in q
          ensures p in blocked && p.semAdd == a
        {
          var j :| 0 <= j < |q| && q[j] == p;
          assert queues[a][j] == p;
        }
      }
    }

    lemma SameSize()
      requires Valid()
      ensures listed.Keys == queues.Keys && |queues| + |spare| == capacity
      ensures forall p :: p in blocked ==> p.semAdd in queues && p in queues[p.semAdd]
    {
      assert |listed.Keys| == |queues.Keys|;
    }

    /** Blocks `p` on `a`; `full` when that needs a descriptor and none is left. */
    method InsertBlocked(a: nat, p: Pcb) returns (full: bool)
      requires Valid() && p !in blocked
      modifies this`free, this`spare, this`listed, this`queues, this`blocked, table
      modifies p`next, p`prev, p`semAdd, blocked`next, blocked`prev
      ensures Valid()
      ensures full <==> a !in old(queues) && |old(queues)| == capacity
      ensures full ==> queues == old(queues) && blocked == old(blocked) && p.semAdd == old(p.semAdd)
      ensures !full ==> queues == old(queues)[a := Waiting(old(queues), a) + [p]]
      ensures !full ==> blocked == old(blocked) + {p} && p.semAdd == a
    {
      hide IsQueue, Linked, Queued, Stacked, Below, Next, Semd.Good;
      SameSize();
      var prev, low := GetPrevSemd(a);
      if prev.next == null || prev.next.semAdd != a {
        assert [] + [p] == [p];
        full := Open(a, p, prev, low);
      } else {
        Owned(a);
        Enqueue(prev.next, a, p);
        full := false;
      }
    }

    /** Takes the first process off the queue of the listed address `a`. */
    method Dequeue(semd: Semd, a: nat) returns (out: Pcb)
      requires Queued({}) && a in listed && semd == listed[a]
      modifies this`queues, this`blocked, semd`procQ, semd`waiting, blocked`next, blocked`prev
      ensures Queued(if semd.waiting == [] then {a} else {})
      ensures semd.procQ == null <==> semd.waiting == []
      ensures var q := old(queues)[a]; q != [] && out == q[0] && semd.waiting == q[1..]
      ensures queues == old(queues)[a := semd.waiting]
      ensures out in old(blocked) && blocked == old(blocked) - {out}
    {
      hide IsQueue;
      Owned(a);
      out := semd.TakeFirst();
      queues := queues[a := semd.waiting];
      blocked := blocked - {out};
      Requeued(a);
    }

    /** Takes `p`, tagged with `a`, off the queue of the listed address `a`, if it is there. */
    method Withdraw(semd: Semd, a: nat, p: Pcb) returns (out: Pcb?)
      requires Queued({}) && a in listed && semd == listed[a] && p.semAdd == a
      modifies this`queues, this`blocked, semd`procQ, semd`waiting, blocked`next, blocked`prev
      ensures Queued(if semd.waiting == [] then {a} else {})
      ensures semd.procQ == null <==> semd.waiting == []
      ensures out == if p in old(blocked) then p else null
      ensures out == null ==> Queued({}) && queues == old(queues) && blocked == old(blocked)
      ensures out != null ==>
        && a in old(queues) && semd.waiting == Without(old(queues)[a], {p})
        && queues == old(queues)[a := semd.waiting] && blocked == old(blocked) - {p}
    {
      hide IsQueue, Semd.Good, Members, Tagged, Without, NoDup;
      Owned(a);
      WhoWaits(a);
      out := semd.TakeOut(p);
      queues := queues[a := semd.waiting];
      blocked := blocked - {p};
      Requeued(a);
    }

    /** Unlists address `a` if its queue has just become empty. */
    method DropIfEmpty(prev: Semd, a: nat, ghost low: int)
      requires Stacked() && Linked() && Below(prev, low) && At(prev, low, a)
      requires a in listed && prev.next == listed[a] && Queued(if listed[a].waiting == [] then {a} else {})
      requires |listed| + |spare| == capacity
      requires listed[a].procQ == null <==> listed[a].waiting == []
      modifies this`free, this`spare, this`listed, this`queues, table`next
      ensures Valid() && queues == if old(queues)[a] == [] then old(queues) - {a} else old(queues)
    {
      hide IsQueue, Next, Semd.Good, IsStack;
      if prev.next.procQ == null {
        Drop(prev, a, low);
      }
    }

    method Drop(prev: Semd, a: nat, ghost low: int)
      requires Stacked() && Linked() && Below(prev, low) && At(prev, low, a)
      requires a in listed && prev.next == listed[a] && Queued({a}) && queues[a] == []
      requires |listed| + |spare| == capacity
      modifies this`free, this`spare, this`listed, this`queues, table`next
      ensures Valid() && queues == old(queues) - {a}
    {
      hide IsQueue, Next, Semd.Good, Linked, Stacked, Below, At;
      queues := queues - {a};
      Unlist(prev, a, low);
      Delisted(a);
    }

    /** Moves the descriptor of `a` from the active list to the free stack. */
    method Unlist(prev: Semd, a: nat, ghost low: int)
      requires Stacked() && Linked() && Below(prev, low) && At(prev, low, a)
      requires a in listed && prev.next == listed[a]
      modifies this`free, this`spare, this`listed, table`next
      ensures Stacked() && Linked()
      ensures listed == old(listed) - {a} && |listed| + |spare| == old(|listed| + |spare|)
    {
      hide IsStack, Next;
      Apart(prev, low, a);
      var semd := Unlink(prev, low);
      Release(semd);
    }

    /** Returns an unlisted descriptor to the free stack. */
    method Release(semd: Semd)
      requires Stacked() && Linked() && Unlisted(semd)
      modifies this`free, this`spare, semd`next
      ensures Stacked() && Linked() && spare == [semd] + old(spare)
    {
      hide IsStack, Next;
      FreeSemd(semd);
    }

    twostate lemma Delisted(a: nat)
      requires old(Queued({a})) && a in old(listed) && old(queues[a]) == []
      requires blocked == old(blocked)
      requires listed == old(listed) - {a} && queues == old(queues) - {a}
      requires forall b {:trigger listed[b]} :: b in listed ==> var n := listed[b];
        n.semAdd == old(n.semAdd) && n.procQ == old(n.procQ) && n.waiting == old(n.waiting)
      requires forall p {:trigger p in blocked} :: p in blocked ==>
        p.next == old(p.next) && p.prev == old(p.prev) && p.semAdd == old(p.semAdd)
      ensures Queued({})
    {
      hide IsQueue;
      forall b | b in listed
        ensures listed[b].Good()
      {
        assert old(listed[b].Good());
        assert forall j :: 0 <= j < |listed[b].waiting| ==> listed[b].waiting[j] == queues[b][j];
        listed[b].StaysGood();
      }
    }

    /** Wakes the process that has waited longest on `a`; null when none does. */
    method RemoveBlocked(a: nat) returns (out: Pcb?)
      requires Valid()
      modifies this`free, this`spare, this`listed, this`queues, this`blocked, table
      modifies blocked`next, blocked`prev
      ensures Valid()
      ensures a !in old(queues) ==> out == null && queues == old(queues) && blocked == old(blocked)
      ensures a in old(queues) ==>
        && old(queues)[a] != [] && out == old(queues)[a][0]
        && queues == Requeue(old(queues), a, old(queues)[a][1..])
        && out in old(blocked) && blocked == old(blocked) - {out}
    {
      hide IsQueue, Linked, Stacked, Below, Next, Queued;
      SameSize();
      var prev, low := GetPrevSemd(a);
      if prev.next == null || prev.next.semAdd != a {
        return null;
      }
      Owned(a);
      out := Dequeue(prev.next, a);
      DropIfEmpty(prev, a, low);
    }

    /** Takes `p` off the queue it is tagged with, wherever it stands in it; null
        exactly when it is not there. */
    method OutBlocked(p: Pcb) returns (out: Pcb?)
      requires Valid()
      modifies this`free, this`spare, this`listed, this`queues, this`blocked, table
      modifies blocked`next, blocked`prev
      ensures Valid()
      ensures out == (if p in old(blocked) then p else null) && blocked == old(blocked) - {p}
      ensures queues == if p in old(blocked)
        then Requeue(old(queues), p.semAdd, Without(Waiting(old(queues), p.semAdd), {p})) else old(queues)
    {
      hide IsQueue, Linked, Stacked, Below, At, Next, Semd.Good, Queued, Members, Tagged, Without, IsStack;
      SameSize();
      var a := p.semAdd;
      var prev, low := GetPrevSemd(a);
      if prev.next == null || prev.next.semAdd != a {
        return null;
      }
      out := OutListed(p, a, prev, low);
    }

    method OutListed(p: Pcb, a: nat, prev: Semd, ghost low: int) returns (out: Pcb?)
      requires Valid() && p.semAdd == a && a in listed && Below(prev, low) && At(prev, low, a) && prev.next == listed[a]
      modifies this`free, this`spare, this`listed, this`queues, this`blocked, table
      modifies blocked`next, blocked`prev
      ensures Valid()
      ensures out == (if p in old(blocked) then p else null) && blocked == old(blocked) - {p}
      ensures queues == if p in old(blocked)
        then Requeue(old(queues), a, Without(Waiting(old(queues), a), {p})) else old(queues)
    {
      hide IsQueue, Linked, Stacked, Below, At, Next, Semd.Good, Queued, Members, Tagged, Without, IsStack;
      SameSize();
      Owned(a);
      out := Withdraw(prev.next, a, p);
      if out == null {
        return null;
      }
      DropIfEmpty(prev, a, low);
    }

    method HeadBlocked(a: nat) returns (head: Pcb?)
      requires Valid()
      ensures head == if a in queues then queues[a][0] else null
    {
      SameSize();
      var prev, low := GetPrevSemd(a);
      if prev.next == null || prev.next.semAdd != a {
        return null;
      }
      head := HeadProcQ(prev.next.procQ, prev.next.waiting);
    }
  }
}
