/** The list of delayed processes: what inserting and removing do to it, in what
    order it is kept, and whom the daemon wakes. */
module DelayList {
  import opened Sequences

  const FAILURE: int := -1

  /** A process to be woken, and the time it asked for. */
  datatype Entry = Entry(wakeTime: int, procID: int)

  // ---------------------------------------------------------- what is promised

  /** Where a new entry goes among entries below the head. */
  ghost function Placed(q: seq<Entry>, e: Entry): seq<Entry> {
    if q == [] || q[0].wakeTime >= e.wakeTime then [e] + q else [q[0]] + Placed(q[1..], e)
  }

  /** The search for its place starts behind the head. */
  ghost function Inserted(q: seq<Entry>, e: Entry): seq<Entry> {
    if q == [] then [e] else [q[0]] + Placed(q[1..], e)
  }

  ghost predicate Sorted(q: seq<Entry>) {
    forall i, j :: 0 <= i < j < |q| ==> q[i].wakeTime <= q[j].wakeTime
  }

  ghost predicate SortedBelowHead(q: seq<Entry>) { q == [] || Sorted(q[1..]) }

  lemma {:induction false} PlacedMembers(q: seq<Entry>, e: Entry)
    ensures multiset(Placed(q, e)) == multiset(q) + multiset{e}
    ensures forall x :: x in Placed(q, e) ==> x in q || x == e
  {
    if q != [] && q[0].wakeTime < e.wakeTime {
      PlacedMembers(q[1..], e);
      assert q == [q[0]] + q[1..];
    }
  }

  lemma {:induction false} PlacedSorted(q: seq<Entry>, e: Entry)
    requires Sorted(q)
    ensures Sorted(Placed(q, e))
  {
    if q == [] || q[0].wakeTime >= e.wakeTime {
      SortedFront(e, q);
    } else {
      SortedTail(q);
      PlacedSorted(q[1..], e);
      PlacedMembers(q[1..], e);
      hide Sorted;
      NoneEarlier(q);
      SortedFront(q[0], Placed(q[1..], e));
    }
  }

  lemma SortedTail(q: seq<Entry>)
    requires Sorted(q) && q != []
    ensures Sorted(q[1..])
  {
  }

  lemma NoneEarlier(q: seq<Entry>)
    requires Sorted(q) && q != []
    ensures forall x :: x in q ==> q[0].wakeTime <= x.wakeTime
  {
  }

  lemma SortedFront(e: Entry, q: seq<Entry>)
    requires Sorted(q) && (q != [] ==> e.wakeTime <= q[0].wakeTime)
    ensures Sorted([e] + q)
  {
    var r := [e] + q;
    forall i, j | 0 <= i < j < |r|
      ensures r[i].wakeTime <= r[j].wakeTime
    {
      assert q[0].wakeTime <= q[j - 1].wakeTime && r[j] == q[j - 1];
    }
  }

  /** Inserting adds the entry, loses none, and keeps the list below its head sorted. */
  lemma InsertedSorted(q: seq<Entry>, e: Entry)
    requires SortedBelowHead(q)
    ensures SortedBelowHead(Inserted(q, e)) && multiset(Inserted(q, e)) == multiset(q) + multiset{e}
  {
    if q != [] {
      PlacedSorted(q[1..], e);
      PlacedMembers(q[1..], e);
      hide Sorted, Placed;
      assert q == [q[0]] + q[1..];
      assert Inserted(q, e)[1..] == Placed(q[1..], e);
    } else {
      assert Inserted(q, e)[1..] == [];
    }
  }

  lemma RemovedSorted(q: seq<Entry>)
    requires SortedBelowHead(q) && q != []
    ensures SortedBelowHead(q[1..])
  {
  }

  /** The whole list stays sorted exactly when it was empty or its head is not
      later than the new entry. */
  lemma StaysSortedIff(q: seq<Entry>, e: Entry)
    requires Sorted(q)
    ensures Sorted(Inserted(q, e)) <==> q == [] || q[0].wakeTime <= e.wakeTime
  {
    if q != [] {
      var r := Placed(q[1..], e);
      SortedTail(q);
      NoneEarlier(q);
      PlacedSorted(q[1..], e);
      PlacedMembers(q[1..], e);
      hide Placed;
      assert Inserted(q, e) == [q[0]] + r;
      if q[0].wakeTime <= e.wakeTime {
        SortedFront(q[0], r);
      } else if Sorted([q[0]] + r) {
        assert e in multiset(r);
        NoneEarlier([q[0]] + r);
        assert false;
      }
    }
  }

  /** Those the daemon wakes at time `now`: from the head on, while they are due. */
  ghost function Due(q: seq<Entry>, now: int): (due: seq<Entry>)
    ensures |due| <= |q|
  {
    if q == [] || q[0].wakeTime > now || q[0].wakeTime == FAILURE then [] else [q[0]] + Due(q[1..], now)
  }

  /** The daemon wakes a stretch from the head, nobody before its time, and stops
      only at an entry that is not due or at the end. */
  lemma {:induction false} NeverEarly(q: seq<Entry>, now: int)
    ensures Due(q, now) <= q && forall e :: e in Due(q, now) ==> e.wakeTime <= now
    ensures var rest := q[|Due(q, now)|..]; rest == [] || rest[0].wakeTime > now || rest[0].wakeTime == FAILURE
  {
    if q == [] || q[0].wakeTime > now || q[0].wakeTime == FAILURE {
    } else {
      NeverEarly(q[1..], now);
      var d := Due(q[1..], now);
      assert Due(q, now) == [q[0]] + d && q == [q[0]] + q[1..];
      assert q[|Due(q, now)|..] == q[1..][|d|..];
    }
  }

  /** What a pass at time `now` leaves on the list. */
  ghost function Rest(q: seq<Entry>, now: int): seq<Entry> { q[|Due(q, now)|..] }

  ghost predicate NobodyDue(q: seq<Entry>, now: int) { forall e :: e in q ==> e.wakeTime > now }

  /** A pass leaves nobody who is due asleep exactly when the head was due or
      nobody was. */
  lemma NobodyOversleepsIff(q: seq<Entry>, now: int)
    requires SortedBelowHead(q) && forall e :: e in q ==> e.wakeTime != FAILURE
    ensures NobodyDue(Rest(q, now), now) <==> q == [] || q[0].wakeTime <= now || NobodyDue(q, now)
  {
    if q != [] && q[0].wakeTime <= now {
      SortedRest(q[1..], now);
      assert q[0] in q;
      assert Rest(q, now) == Rest(q[1..], now);
    } else {
      assert Rest(q, now) == q;
    }
  }

  lemma {:induction false} SortedRest(q: seq<Entry>, now: int)
    requires Sorted(q) && forall e :: e in q ==> e.wakeTime != FAILURE
    ensures NobodyDue(Rest(q, now), now)
  {
    if q != [] {
      NoneEarlier(q);
      assert q[0] in q;
      if q[0].wakeTime <= now {
        SortedTail(q);
        SortedRest(q[1..], now);
        assert Rest(q, now) == Rest(q[1..], now);
      } else {
        assert Rest(q, now) == q;
      }
    }
  }

  // ------------------------------------------------------------------ the nodes

  class Delayd {
    var next: Delayd?
    var wakeTime: int
    var procID: int

    constructor ()
    {
      next, wakeTime, procID := null, FAILURE, FAILURE;
    }
  }

  /** The list from `head` is exactly `s`. */
  ghost predicate IsList(head: Delayd?, s: seq<Delayd>)
    reads Elements(s)`next
  {
    && NoDup(s)
    && head == (if s == [] then null else s[0])
    && forall i {:trigger s[i].next} :: 0 <= i < |s| ==> s[i].next == if i + 1 < |s| then s[i + 1] else null
  }

  ghost function EntriesOf(s: seq<Delayd>): (r: seq<Entry>)
    reads Elements(s)`wakeTime, Elements(s)`procID
    ensures |r| == |s| && forall i :: 0 <= i < |s| ==> r[i] == Entry(s[i].wakeTime, s[i].procID)
  {
    if s == [] then [] else [Entry(s[0].wakeTime, s[0].procID)] + EntriesOf(s[1..])
  }

  class Adl {
    const capacity: nat
    var free: Delayd?
    var active: Delayd?
    ghost var spare: seq<Delayd>
    ghost var chain: seq<Delayd>
    ghost var entries: seq<Entry>

    /** Each node is on one of the two lists, and below its head the active one is
        sorted. */
    ghost predicate Valid()
      reads this, Elements(spare)`next, Elements(chain)
    {
      && IsList(free, spare) && IsList(active, chain)
      && |spare| + |chain| == capacity
      && (forall x :: x in spare ==> x !in chain)
      && entries == EntriesOf(chain) && SortedBelowHead(entries)
    }

    ghost function Nodes(): set<Delayd>
      reads this
    {
      Elements(spare) + Elements(chain)
    }

    constructor InitADL(maxUserProc: nat)
      ensures Valid() && fresh(Nodes()) && capacity == maxUserProc + 1 && entries == []
    {
      capacity := maxUserProc + 1;
      free, active, spare, chain, entries := null, null, [], [], [];
      new;
      var i := 0;
      while i < maxUserProc + 1
        invariant i <= maxUserProc + 1 && |spare| == i && fresh(spare)
        invariant IsList(free, spare) && active == null && chain == [] && entries == []
      {
        var node := new Delayd();
        FreeDelayd(node);
        i := i + 1;
      }
    }

    method FreeDelayd(node: Delayd)
      requires IsList(free, spare) && node !in spare
      modifies `free, `spare, node`next
      ensures IsList(free, spare) && spare == [node] + old(spare)
    {
      if free == null {
        free := node;
        free.next := null;
      } else {
        node.next := free;
        free := node;
      }
      spare := [node] + spare;
    }

    method AllocDelayd() returns (node: Delayd?)
      requires IsList(free, spare)
      modifies `free, `spare, (if spare == [] then {} else {spare[0]})
      ensures IsList(free, spare)
      ensures old(spare) == [] ==> node == null && spare == []
      ensures old(spare) != [] ==> node == old(spare)[0] && spare == old(spare)[1..] && node !in spare
    {
      if free == null {
        return null;
      }
      node := free;
      if free.next == null {
        free := null;
      } else {
        free := free.next;
        node.next := null;
      }
      node.next := null;
      node.wakeTime := FAILURE;
      node.procID := FAILURE;
      spare := spare[1..];
    }

    method HeadDelaydTime() returns (time: int)
      requires Valid()
      ensures time == if entries == [] then FAILURE else entries[0].wakeTime
    {
      if active == null {
        return FAILURE;
      }
      return active.wakeTime;
    }

    /** The node behind which an entry for `wakeTime` belongs: the last one such
        that all between it and the head are earlier. */
    method FindPreviousDelayd(wakeTime: int) returns (current: Delayd, ghost k: nat)
      requires IsList(active, chain) && chain != []
      ensures k < |chain| && current == chain[k]
      ensures forall i :: 1 <= i <= k ==> chain[i].wakeTime < wakeTime
      ensures k + 1 < |chain| ==> chain[k + 1].wakeTime >= wakeTime
    {
      current, k := active, 0;
      while current.next != null && current.next.wakeTime < wakeTime
        invariant k < |chain| && current == chain[k]
        invariant forall i :: 1 <= i <= k ==> chain[i].wakeTime < wakeTime
        decreases |chain| - k
      {
        current := current.next;
        k := k + 1;
      }
    }

    /** Delays `procID` until `wakeTime`; false when no node is left. */
    method InsertDelay(wakeTime: int, procID: int) returns (done: bool)
      requires Valid()
      modifies this, Nodes()
      ensures Valid() && Nodes() == old(Nodes()) && done == (|old(entries)| < capacity)
      ensures entries == if done then Inserted(old(entries), Entry(wakeTime, procID)) else old(entries)
    {
      hide NoDup, SortedBelowHead, EntriesOf, IsList, Placed;
      NoEntries();
      var newDelay := Engage(wakeTime, procID);
      if newDelay == null {
        return false;
      }
      if active == null {
        First(newDelay);
        return true;
      }
      var currentDelay, k := FindPreviousDelayd(wakeTime);
      Weave(newDelay, currentDelay, k);
      return true;
    }

    lemma NoEntries()
      requires Valid()
      ensures active == null <==> chain == []
      ensures |entries| == |chain| && |spare| + |entries| == capacity
    {
      hide SortedBelowHead, NoDup;
    }

    /** Takes a node off the free stack and fills it in; null when none is left. */
    method Engage(wakeTime: int, procID: int) returns (node: Delayd?)
      requires Valid()
      modifies `free, `spare, (if spare == [] then {} else {spare[0]})
      ensures node == null <==> |old(entries)| == capacity
      ensures node == null ==> Valid() && Nodes() == old(Nodes())
      ensures node != null ==>
        && IsList(free, spare) && IsList(active, chain) && |spare| + |chain| + 1 == capacity
        && node in old(spare) && node !in spare && node !in chain && (forall x :: x in spare ==> x !in chain)
        && entries == EntriesOf(chain) && SortedBelowHead(entries) && Nodes() + {node} == old(Nodes())
        && node.wakeTime == wakeTime && node.procID == procID
    {
      hide NoDup, SortedBelowHead, EntriesOf, IsList;
      NoEntries();
      assert spare != [] ==> Elements(spare) == {spare[0]} + Elements(spare[1..]);
      assert forall x :: x in Elements(chain) ==> allocated(x) && (spare != [] ==> x != spare[0]);
      node := AllocDelayd();
      if node != null {
        node.wakeTime := wakeTime;
        node.procID := procID;
      }
      assert forall x {:trigger x.next} :: x in Elements(chain) ==> x.next == old(x.next);
      assert forall x {:trigger x.wakeTime} ::
        x in Elements(chain) ==> x.wakeTime == old(x.wakeTime) && x.procID == old(x.procID);
    }

    method First(node: Delayd)
      requires IsList(free, spare) && IsList(active, chain) && chain == [] && node !in spare && |spare| + 1 == capacity
      modifies `active, `chain, `entries, node`next
      ensures Valid() && entries == [Entry(node.wakeTime, node.procID)] && Nodes() == old(Nodes()) + {node}
    {
      active := node;
      node.next := null;
      chain := [node];
      entries := EntriesOf(chain);
    }

    method Weave(node: Delayd, current: Delayd, ghost k: nat)
      requires IsList(free, spare) && IsList(active, chain) && |spare| + |chain| + 1 == capacity
      requires node !in spare && node !in chain && (forall x :: x in spare ==> x !in chain)
      requires entries == EntriesOf(chain) && SortedBelowHead(entries)
      requires k < |chain| && current == chain[k]
      requires forall i :: 1 <= i <= k ==> chain[i].wakeTime < node.wakeTime
      requires k + 1 < |chain| ==> chain[k + 1].wakeTime >= node.wakeTime
      modifies `chain, `entries, node`next, current`next
      ensures Valid() && entries == Inserted(old(entries), Entry(node.wakeTime, node.procID))
      ensures Nodes() == old(Nodes()) + {node}
    {
      hide IsList, NoDup, EntriesOf, Inserted, SortedBelowHead;
      InsertedSorted(entries, Entry(node.wakeTime, node.procID));
      ghost var woven := chain[..k + 1] + [node] + chain[k + 1..];
      ghost var wovenEntries := EntriesOf(woven);
      InsertedAt(entries, Entry(node.wakeTime, node.procID), k);
      EntriesWoven(chain, node, k);
      assert forall x :: x in Elements(spare) ==> allocated(x) && x != node && x != current;
      assert forall x :: x in woven ==> x in chain || x == node;
      Splice(node, current, active, chain, k);
      EntriesAre(woven, wovenEntries);
      assert forall x {:trigger x.next} :: x in Elements(spare) ==> x.next == old(x.next);
      assert IsList(free, spare);
      chain, entries := woven, wovenEntries;
    }

    /** Takes the head off and gives its node back; FAILURE when there is none. */
    method RemoveDelay() returns (procID: int)
      requires Valid()
      modifies this, Nodes()`next
      ensures Valid() && Nodes() == old(Nodes())
      ensures procID == if old(entries) == [] then FAILURE else old(entries)[0].procID
      ensures entries == if old(entries) == [] then [] else old(entries)[1..]
    {
      if active == null {
        return FAILURE;
      }
      hide IsList, NoDup, SortedBelowHead, EntriesOf;
      var tempDelay := Unchain();
      procID := tempDelay.procID;
      Release(tempDelay);
    }

    /** Gives back the node of an entry that has left the list. */
    method Release(node: Delayd)
      requires IsList(free, spare) && IsList(active, chain) && |spare| + |chain| + 1 == capacity
      requires node !in spare && node !in chain && (forall x :: x in spare ==> x !in chain)
      requires entries == EntriesOf(chain) && SortedBelowHead(entries)
      modifies `free, `spare, node`next
      ensures Valid() && Nodes() == old(Nodes()) + {node}
    {
      hide IsList, NoDup, SortedBelowHead, EntriesOf;
      assert forall x :: x in Elements(chain) ==> allocated(x) && x != node;
      FreeDelayd(node);
      assert forall x {:trigger x.next} :: x in Elements(chain) ==> x.next == old(x.next);
      assert Elements(spare) == {node} + Elements(old(spare));
    }

    /** Takes the head of the active list off. */
    method Unchain() returns (node: Delayd)
      requires Valid() && active != null
      modifies `active, `chain, `entries, active`next
      ensures IsList(free, spare) && IsList(active, chain) && |spare| + |chain| + 1 == capacity
      ensures node !in spare && node !in chain && (forall x :: x in spare ==> x !in chain)
      ensures old(entries) != [] && entries == old(entries)[1..] && node.procID == old(entries)[0].procID
      ensures entries == EntriesOf(chain) && SortedBelowHead(entries) && Nodes() + {node} == old(Nodes())
    {
      RemovedSorted(entries);
      TailNoDup(chain);
      hide SortedBelowHead, NoDup;
      assert chain == [chain[0]] + chain[1..];
      node := active;
      active := node.next;
      node.next := null;
      chain := chain[1..];
      entries := entries[1..];
    }
  }

  /** What weaving `node` in behind the node at index `k` makes of a list. */
  lemma Woven(head: Delayd?, s: seq<Delayd>, node: Delayd, k: nat)
    requires NoDup(s) && node !in s && k < |s| && head == s[0]
    requires s[k].next == node && node.next == (if k + 1 < |s| then s[k + 1] else null)
    requires forall i {:trigger s[i].next} ::
      0 <= i < |s| && i != k ==> s[i].next == if i + 1 < |s| then s[i + 1] else null
    ensures IsList(head, s[..k + 1] + [node] + s[k + 1..])
  {
  }

  method Splice(node: Delayd, current: Delayd, ghost head: Delayd?, ghost s: seq<Delayd>, ghost k: nat)
    requires IsList(head, s) && node !in s && k < |s| && current == s[k]
    modifies node`next, current`next
    ensures IsList(head, s[..k + 1] + [node] + s[k + 1..])
  {
    node.next := current.next;
    current.next := node;
    Woven(head, s, node, k);
  }

  lemma EntriesWoven(s: seq<Delayd>, node: Delayd, k: nat)
    requires k < |s|
    ensures EntriesOf(s[..k + 1] + [node] + s[k + 1..])
      == EntriesOf(s)[..k + 1] + [Entry(node.wakeTime, node.procID)] + EntriesOf(s)[k + 1..]
  {
    EntriesJoin(s[..k + 1] + [node], s[k + 1..]);
    EntriesJoin(s[..k + 1], [node]);
    EntriesCut(s, k + 1);
    hide EntriesOf;
    assert EntriesOf([node]) == [Entry(node.wakeTime, node.procID)];
  }

  lemma EntriesAre(s: seq<Delayd>, q: seq<Entry>)
    requires |q| == |s| && forall i :: 0 <= i < |s| ==> q[i] == Entry(s[i].wakeTime, s[i].procID)
    ensures q == EntriesOf(s)
  {
    hide EntriesOf;
  }

  lemma EntriesJoin(s: seq<Delayd>, t: seq<Delayd>)
    ensures EntriesOf(s + t) == EntriesOf(s) + EntriesOf(t)
  {
    hide EntriesOf;
  }

  lemma EntriesCut(s: seq<Delayd>, k: nat)
    requires k <= |s|
    ensures EntriesOf(s[..k]) == EntriesOf(s)[..k] && EntriesOf(s[k..]) == EntriesOf(s)[k..]
  {
    hide EntriesOf;
  }

  lemma {:induction false} PlacedAt(q: seq<Entry>, e: Entry, k: nat)
    requires k <= |q| && (forall i :: 0 <= i < k ==> q[i].wakeTime < e.wakeTime)
    requires k < |q| ==> q[k].wakeTime >= e.wakeTime
    ensures Placed(q, e) == q[..k] + [e] + q[k..]
  {
    if k > 0 {
      PlacedAt(q[1..], e, k - 1);
      assert q[..k] == [q[0]] + q[1..][..k - 1] && q[1..][k - 1..] == q[k..];
    }
  }

  lemma InsertedAt(q: seq<Entry>, e: Entry, k: nat)
    requires k < |q| && (forall i :: 1 <= i <= k ==> q[i].wakeTime < e.wakeTime)
    requires k + 1 < |q| ==> q[k + 1].wakeTime >= e.wakeTime
    ensures Inserted(q, e) == q[..k + 1] + [e] + q[k + 1..]
  {
    PlacedAt(q[1..], e, k);
    assert q[..k + 1] == [q[0]] + q[1..][..k] && q[1..][k..] == q[k + 1..];
  }

  /** One pass of the daemon at time `now`: the processes it wakes, in order, and
      whether it would have panicked. */
  method DaemonPass(adl: Adl, now: int) returns (woken: seq<int>, panicked: bool)
    requires adl.Valid() && forall e :: e in adl.entries ==> e.procID != FAILURE
    modifies adl, adl.Nodes()`next
    ensures adl.Valid() && !panicked && adl.entries == Rest(old(adl.entries), now)
    ensures var due := Due(old(adl.entries), now);
      |woken| == |due| && forall i :: 0 <= i < |due| ==> woken[i] == due[i].procID
    ensures (forall e :: e in old(adl.entries) ==> e.wakeTime != FAILURE) ==>
      (NobodyDue(adl.entries, now) <==>
       old(adl.entries) == [] || old(adl.entries[0].wakeTime) <= now || NobodyDue(old(adl.entries), now))
  {
    assert SortedBelowHead(adl.entries);
    hide IsList, Adl.Valid, Adl.Nodes, Rest, Due, NobodyDue, SortedBelowHead, NoDup, Passed;
    woken, panicked := [], false;
    ghost var q := adl.entries;
    NonePassed(q, now);
    var head := adl.HeadDelaydTime();
    while head <= now && head != FAILURE
      invariant adl.Valid() && adl.Nodes() == old(adl.Nodes()) && !panicked
      invariant Passed(q, now, adl.entries, woken)
      invariant head == if adl.entries == [] then FAILURE else adl.entries[0].wakeTime
      decreases |adl.entries|
    {
      OneMorePassed(q, now, adl.entries, woken);
      var procID := adl.RemoveDelay();
      if procID == FAILURE {
        panicked := true;
      }
      woken := woken + [procID];
      head := adl.HeadDelaydTime();
    }
    AllPassed(q, now, adl.entries, woken);
    if forall e :: e in q ==> e.wakeTime != FAILURE {
      NobodyOversleepsIff(q, now);
    }
  }

  /** Of the list `q`, the daemon has woken `woken` and has `rest` before it. */
  ghost predicate Passed(q: seq<Entry>, now: int, rest: seq<Entry>, woken: seq<int>) {
    && |woken| <= |q| && rest == q[|woken|..]
    && Due(q, now) == q[..|woken|] + Due(rest, now)
    && forall i :: 0 <= i < |woken| ==> woken[i] == q[i].procID
  }

  lemma NonePassed(q: seq<Entry>, now: int)
    ensures Passed(q, now, q, [])
  {
  }

  lemma OneMorePassed(q: seq<Entry>, now: int, rest: seq<Entry>, woken: seq<int>)
    requires Passed(q, now, rest, woken) && rest != [] && rest[0].wakeTime <= now && rest[0].wakeTime != FAILURE
    ensures Passed(q, now, rest[1..], woken + [rest[0].procID]) && rest[0] in q
  {
    assert q[..|woken| + 1] == q[..|woken|] + [rest[0]];
  }

  lemma AllPassed(q: seq<Entry>, now: int, rest: seq<Entry>, woken: seq<int>)
    requires Passed(q, now, rest, woken) && (rest == [] || rest[0].wakeTime > now || rest[0].wakeTime == FAILURE)
    ensures rest == Rest(q, now) && |woken| == |Due(q, now)|
    ensures forall i :: 0 <= i < |woken| ==> woken[i] == Due(q, now)[i].procID
  {
  }

  /** How somebody who is due stays asleep: the earlier of two is inserted last,
      behind the later, at which the daemon stops. */
  method Oversleeper(maxUserProc: nat, sooner: int, now: int, later: int) returns (adl: Adl, woken: seq<int>)
    requires maxUserProc > 0 && 0 <= sooner <= now < later
    ensures fresh(adl) && adl.Valid() && adl.entries == [Entry(later, 1), Entry(sooner, 2)] && !Sorted(adl.entries)
    ensures woken == [] && !NobodyDue(adl.entries, now)
  {
    adl := new Adl.InitADL(maxUserProc);
    var first := adl.InsertDelay(later, 1);
    var second := adl.InsertDelay(sooner, 2);
    assert adl.entries == [Entry(later, 1), Entry(sooner, 2)] && adl.entries[1].wakeTime < adl.entries[0].wakeTime;
    var panicked;
    woken, panicked := DaemonPass(adl, now);
    assert adl.entries[1] in adl.entries;
  }
}
