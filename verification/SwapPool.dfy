/** The pager's own tables: page table entries, and the swap pool whose slots
    point into them. What each method does to them is what the corresponding step
    of module Pager does. */
module SwapPool {
  import Pager

  const PAGES: nat := 32               // entries in a page table
  const NOBODY: int := -1
  const GARBAGE: int := -1             // an address with all bits on

  class Entry {
    var frame: int                     // where the page is, if the entry is valid
    var valid: bool

    constructor ()
      ensures frame == GARBAGE && !valid
    {
      frame, valid := GARBAGE, false;
    }

    ghost function Pte(): Pager.Pte
      reads this
    {
      if !valid then Pager.Invalid else if frame >= 0 then Pager.Valid(frame) else Pager.Wrecked
    }
  }

  class Tables {
    const users: nat
    const swapSize: nat
    const pteTable: array2<Entry>      // by process, from 0, and page
    const swAsid: array<int>
    const swPageNo: array<nat>
    const swPte: array<Entry?>
    var nextFrame: nat
    ghost const entries: set<Entry>

    /** Entries are distinct, and an occupied slot points at the entry of its page. */
    ghost predicate Valid()
      reads this, pteTable, swAsid, swPageNo, swPte
    {
      && swapSize > 0 && nextFrame < swapSize
      && pteTable.Length0 == users && pteTable.Length1 == PAGES
      && swAsid.Length == swPageNo.Length == swPte.Length == swapSize
      && (forall i, j :: 0 <= i < users && 0 <= j < PAGES ==> pteTable[i, j] in entries)
      && (forall i, j, k, l {:trigger pteTable[i, j], pteTable[k, l]} ::
            0 <= i < users && 0 <= k < users && 0 <= j < PAGES && 0 <= l < PAGES ==>
              (pteTable[i, j] == pteTable[k, l] ==> i == k && j == l))
      && (forall f :: 0 <= f < swapSize ==> SlotOk(f))
    }

    ghost predicate SlotOk(f: int)
      requires 0 <= f < swAsid.Length && swAsid.Length == swPageNo.Length == swPte.Length
      reads pteTable, swAsid, swPageNo, swPte
    {
      swAsid[f] == NOBODY ||
      (1 <= swAsid[f] <= pteTable.Length0 && swPageNo[f] < pteTable.Length1 &&
        swPte[f] == pteTable[swAsid[f] - 1, swPageNo[f]])
    }

    ghost function Slot(f: nat): Pager.Slot
      requires f < swAsid.Length && swAsid.Length == swPageNo.Length
      reads swAsid, swPageNo
    {
      if swAsid[f] < 0 then Pager.Empty else Pager.Occupied(swAsid[f], swPageNo[f])
    }

    ghost function Pte(a: nat, g: nat): Pager.Pte
      requires 1 <= a <= pteTable.Length0 && g < pteTable.Length1
      reads pteTable, pteTable[a - 1, g]
    {
      pteTable[a - 1, g].Pte()
    }

    /** The tables as the boot code sets them up: nothing resident. */
    constructor Test(maxUserProc: nat, size: nat)
      requires size > 0
      ensures Valid() && fresh(pteTable) && fresh(swAsid) && fresh(swPageNo) && fresh(swPte) && fresh(entries)
      ensures users == maxUserProc && swapSize == size && nextFrame == 0
      ensures forall f: nat :: f < size ==> Slot(f) == Pager.Empty
      ensures forall a: nat, g: nat :: 1 <= a <= users && g < PAGES ==> Pte(a, g) == Pager.Invalid
    {
      users, swapSize, nextFrame := maxUserProc, size, 0;
      var dummy := new Entry();
      var table := new Entry[maxUserProc, PAGES]((i, j) => dummy);
      var asids := new int[size];
      var pages := new nat[size];
      var ptes := new Entry?[size];
      ghost var made: set<Entry> := {};
      var i := 0;
      while i < size
        invariant i <= size && forall f :: 0 <= f < i ==> asids[f] == NOBODY && ptes[f] == null
      {
        asids[i] := NOBODY;
        ptes[i] := null;
        i := i + 1;
      }
      i := 0;
      while i < maxUserProc
        invariant i <= maxUserProc && fresh(made)
        invariant forall k, l :: 0 <= k < i && 0 <= l < PAGES ==> table[k, l] in made && !table[k, l].valid
        invariant forall k, l, x, y {:trigger table[k, l], table[x, y]} ::
          0 <= k < i && 0 <= x < i && 0 <= l < PAGES && 0 <= y < PAGES && table[k, l] == table[x, y] ==>
            k == x && l == y
        invariant forall f :: 0 <= f < size ==> asids[f] == NOBODY
      {
        var j := 0;
        while j < PAGES
          invariant j <= PAGES && fresh(made)
          invariant forall k, l ::
            0 <= k <= i && 0 <= l < PAGES && (k < i || l < j) ==> table[k, l] in made && !table[k, l].valid
          invariant forall k, l, x, y {:trigger table[k, l], table[x, y]} ::
            0 <= k <= i && 0 <= x <= i && 0 <= l < PAGES && 0 <= y < PAGES && (k < i || l < j) && (x < i || y < j) &&
              table[k, l] == table[x, y]
            ==> k == x && l == y
          invariant forall f :: 0 <= f < size ==> asids[f] == NOBODY
        {
          var entry := new Entry();
          made := made + {entry};
          table[i, j] := entry;
          j := j + 1;
        }
        i := i + 1;
      }
      pteTable, swAsid, swPageNo, swPte, entries := table, asids, pages, ptes, made;
    }

    /** First in, first out. */
    method ChooseFrame() returns (frame: nat)
      requires Valid()
      modifies `nextFrame
      ensures Valid() && frame == nextFrame == (old(nextFrame) + 1) % swapSize
    {
      nextFrame := (nextFrame + 1) % swapSize;
      return nextFrame;
    }

    /** Strikes the occupant's entry, if there is an occupant. */
    method TurnOut(f: nat) returns (occupied: bool, asid: int, page: nat)
      requires Valid() && f < swapSize
      modifies entries`valid
      ensures Valid() && occupied == Slot(f).Occupied?
      ensures occupied ==> asid >= 0 && Slot(f) == Pager.Occupied(asid, page)
      ensures forall a: nat, g: nat :: 1 <= a <= users && g < PAGES ==>
        Pte(a, g) == if Slot(f) == Pager.Occupied(a, g) then Pager.Invalid else old(Pte(a, g))
    {
      occupied, asid, page := swAsid[f] != NOBODY, swAsid[f], swPageNo[f];
      assert SlotOk(f);
      if occupied {
        swPte[f].valid := false;
      }
    }

    /** Frame `f` now holds page `page` of `asid`. */
    method TakeIn(f: nat, asid: nat, page: nat)
      requires Valid() && f < swapSize && 1 <= asid <= users && page < PAGES
      modifies entries, swAsid, swPageNo, swPte
      ensures Valid()
      ensures forall e: nat :: e < swapSize ==> Slot(e) == if e == f then Pager.Occupied(asid, page) else old(Slot(e))
      ensures forall a: nat, g: nat :: 1 <= a <= users && g < PAGES ==>
        Pte(a, g) == if a == asid && g == page then Pager.Valid(f) else old(Pte(a, g))
    {
      swAsid[f] := asid;
      swPageNo[f] := page;
      swPte[f] := pteTable[asid - 1, page];
      swPte[f].frame := f;
      swPte[f].valid := true;
      forall e | 0 <= e < swapSize
        ensures SlotOk(e)
      {
        assert e != f ==> old(SlotOk(e));
      }
    }

    /** Empties the frames of a dying process. Its entries keep their valid bit,
        the rest of them being overwritten; whether any was found tells whether
        the translations have to be cleared. */
    method StrikeOut(procID: nat) returns (modified: bool)
      requires Valid() && procID >= 1
      modifies entries`frame, swAsid
      ensures Valid()
      ensures modified <==> exists f: nat :: f < swapSize && old(swAsid[f]) == procID
      ensures forall f: nat :: f < swapSize ==>
        Slot(f) == if old(Slot(f)).Occupied? && old(Slot(f)).asid == procID then Pager.Empty else old(Slot(f))
      ensures forall a: nat, g: nat :: 1 <= a <= users && g < PAGES && a != procID ==> Pte(a, g) == old(Pte(a, g))
      ensures forall g: nat, f: nat ::
        g < PAGES && procID <= users && f < swapSize && old(Slot(f)) == Pager.Occupied(procID, g) ==>
        Pte(procID, g) == if old(Pte(procID, g)).Valid? then Pager.Wrecked else old(Pte(procID, g))
      ensures forall g: nat :: g < PAGES && procID <= users ==>
        ((forall f: nat :: f < swapSize ==> old(Slot(f)) != Pager.Occupied(procID, g)) ==>
           Pte(procID, g) == old(Pte(procID, g)))
    {
      modified := false;
      ghost var struck: set<nat> := {};
      var i := 0;
      while i < swapSize
        invariant i <= swapSize && Valid()
        invariant modified <==> exists f :: 0 <= f < i && old(swAsid[f]) == procID
        invariant forall f :: 0 <= f < i ==> swAsid[f] == if old(swAsid[f]) == procID then NOBODY else old(swAsid[f])
        invariant forall f :: i <= f < swapSize ==> swAsid[f] == old(swAsid[f])
        invariant forall a, g ::
          0 <= a < users && 0 <= g < PAGES && a != procID - 1 ==> pteTable[a, g].frame == old(pteTable[a, g].frame)
        invariant forall g :: 0 <= g < PAGES && procID <= users && g !in struck ==>
          pteTable[procID - 1, g].frame == old(pteTable[procID - 1, g].frame)
        invariant forall g :: g in struck ==> exists f: nat :: f < i && old(Slot(f)) == Pager.Occupied(procID, g)
        invariant forall f ::
          0 <= f < i && old(swAsid[f]) == procID ==> old(swPte[f]) != null && old(swPte[f]).frame == GARBAGE
      {
        assert SlotOk(i) && old(SlotOk(i));
        if swAsid[i] == procID {
          assert old(Slot(i)) == Pager.Occupied(procID, swPageNo[i]);
          struck := struck + {swPageNo[i]};
          swPte[i].frame := GARBAGE;
          swAsid[i] := NOBODY;
          modified := true;
        }
        i := i + 1;
        forall f | 0 <= f < swapSize
          ensures SlotOk(f)
        {
          assert old(SlotOk(f));
        }
      }
      forall g: nat, f: nat | g < PAGES && procID <= users && f < swapSize && old(Slot(f)) == Pager.Occupied(procID, g)
        ensures Pte(procID, g) == if old(Pte(procID, g)).Valid? then Pager.Wrecked else old(Pte(procID, g))
      {
        assert old(SlotOk(f)) && old(swPte[f]) == pteTable[procID - 1, g];
      }
      forall g: nat | g < PAGES && procID <= users &&
        (forall f: nat :: f < swapSize ==> old(Slot(f)) != Pager.Occupied(procID, g))
        ensures Pte(procID, g) == old(Pte(procID, g))
      {
        assert g !in struck;
        assert pteTable[procID - 1, g].frame == old(pteTable[procID - 1, g].frame);
      }
    }
  }

  // --------------------------------------------- the tables within the protocol

  /** The tables say what the swap pool and the page tables of the protocol say. */
  ghost predicate Mirrors(t: Tables, y: Pager.Memory)
    requires t.Valid()
    reads t, t.pteTable, t.swAsid, t.swPageNo, t.swPte, t.entries
  {
    && (forall f: nat {:trigger Pager.SlotAt(y, f)} ::
       Pager.SlotAt(y, f) == if f < t.swapSize then t.Slot(f) else Pager.Empty)
    && (forall a: nat, g: nat {:trigger Pager.PteAt(y, a, g)} ::
       1 <= a <= t.users && g < PAGES ==> Pager.PteAt(y, a, g) == t.Pte(a, g))
  }

  /** The boot code's tables are those the protocol starts from. */
  method SetUp(maxUserProc: nat, size: nat, ghost m: Pager.Machine) returns (t: Tables)
    requires size > 0 && m.swapSize == size && m.mem.slots == map[] && m.mem.ptes == map[] && m.mem.next == 0
    ensures fresh(t) && t.Valid() && Mirrors(t, m.mem) && t.nextFrame == m.mem.next && t.swapSize == m.swapSize
  {
    t := new Tables.Test(maxUserProc, size);
  }

  /** Step Choose. */
  method PickFrame(t: Tables, ghost m: Pager.Machine, ghost a: nat) returns (f: nat)
    requires t.Valid() && t.nextFrame == m.mem.next && t.swapSize == m.swapSize
    requires a in m.procs && Pager.Can(m, a, Pager.Choose)
    requires Mirrors(t, m.mem)
    modifies t`nextFrame
    ensures var n := Pager.Next(m, a, Pager.Choose);
      t.Valid() && Mirrors(t, n.mem) && t.nextFrame == n.mem.next && n.procs[a].pc.frame == f
  {
    ghost var n := Pager.Next(m, a, Pager.Choose);
    assert forall e: nat {:trigger Pager.SlotAt(n.mem, e)} :: Pager.SlotAt(n.mem, e) == Pager.SlotAt(m.mem, e);
    assert forall b: nat, g: nat {:trigger Pager.PteAt(n.mem, b, g)} ::
      Pager.PteAt(n.mem, b, g) == Pager.PteAt(m.mem, b, g);
    f := t.ChooseFrame();
  }

  /** Step Clear: the owner of the frame's page, and the page, if it has one. */
  method ClearFrame(t: Tables, f: nat, ghost m: Pager.Machine, ghost a: nat)
    returns (occupied: bool, asid: int, page: nat)
    requires t.Valid() && f < t.swapSize && Mirrors(t, m.mem)
    requires a in m.procs && Pager.Can(m, a, Pager.Clear) && m.procs[a].pc.frame == f
    modifies t.entries`valid
    ensures var n := Pager.Next(m, a, Pager.Clear);
      t.Valid() && Mirrors(t, n.mem) && (n.procs[a].pc.Evict? <==> occupied)
    ensures occupied ==> asid >= 0 && Pager.SlotAt(m.mem, f) == Pager.Occupied(asid, page)
  {
    ghost var s, n := Pager.SlotAt(m.mem, f), Pager.Next(m, a, Pager.Clear);
    assert forall e: nat {:trigger Pager.SlotAt(n.mem, e)} :: Pager.SlotAt(n.mem, e) == Pager.SlotAt(m.mem, e);
    assert forall b: nat, g: nat {:trigger Pager.PteAt(n.mem, b, g)} ::
      Pager.PteAt(n.mem, b, g) == if s == Pager.Occupied(b, g) then Pager.Invalid else Pager.PteAt(m.mem, b, g);
    hide Pager.Next, Pager.SlotAt, Pager.PteAt;
    occupied, asid, page := t.TurnOut(f);
  }

  /** Step Map. */
  method MapFrame(t: Tables, f: nat, asid: nat, page: nat, ghost m: Pager.Machine)
    requires t.Valid() && f < t.swapSize && 1 <= asid <= t.users && page < PAGES && Mirrors(t, m.mem)
    requires asid in m.procs && m.procs[asid].pc == Pager.Fetched(page, f)
    modifies t.entries, t.swAsid, t.swPageNo, t.swPte
    ensures t.Valid() && Mirrors(t, Pager.Next(m, asid, Pager.Map).mem)
  {
    ghost var y, z := m.mem, Pager.Next(m, asid, Pager.Map).mem;
    assert forall e: nat {:trigger Pager.SlotAt(z, e)} ::
      Pager.SlotAt(z, e) == if e == f then Pager.Occupied(asid, page) else Pager.SlotAt(y, e);
    assert forall a: nat, g: nat {:trigger Pager.PteAt(z, a, g)} ::
      Pager.PteAt(z, a, g) == if a == asid && g == page then Pager.Valid(f) else Pager.PteAt(y, a, g);
    hide Pager.Next, Pager.SlotAt, Pager.PteAt;
    t.TakeIn(f, asid, page);
  }

  /** Step Sweep. */
  method SweepOut(t: Tables, procID: nat, ghost m: Pager.Machine) returns (modified: bool)
    requires t.Valid() && 1 <= procID <= t.users && Mirrors(t, m.mem)
    requires procID in m.procs && Pager.Can(m, procID, Pager.Sweep)
    modifies t.entries`frame, t.swAsid
    ensures t.Valid() && Mirrors(t, Pager.Next(m, procID, Pager.Sweep).mem)
    ensures modified <==> exists f: nat :: HasSlot(m.mem, procID, f)
  {
    ghost var y, z := m.mem, Pager.Struck(m.mem, procID);
    assert Pager.Next(m, procID, Pager.Sweep).mem == z;
    hide Pager.Next, Pager.Struck, Tables.SlotOk;
    StruckSlots(y, procID);
    StruckEntries(y, procID);
    assert forall f: nat :: f < t.swapSize && t.swAsid[f] == procID ==> HasSlot(y, procID, f);
    assert forall f: nat :: HasSlot(y, procID, f) ==> f < t.swapSize && t.swAsid[f] == procID;
    label Before:
    modified := t.StrikeOut(procID);
    forall a: nat, g: nat {:trigger Pager.PteAt(z, a, g)} | 1 <= a <= t.users && g < PAGES
      ensures Pager.PteAt(z, a, g) == t.Pte(a, g)
    {
      assert Pager.PteAt(y, a, g) == old@Before(t.Pte(a, g));
    }
  }

  ghost predicate HasSlot(y: Pager.Memory, a: nat, f: nat) {
    Pager.SlotAt(y, f).Occupied? && Pager.SlotAt(y, f).asid == a
  }

  ghost predicate HasPage(y: Pager.Memory, a: nat, g: nat) {
    exists f: nat :: Pager.SlotAt(y, f) == Pager.Occupied(a, g)
  }

  /** Which slots striking a process out empties. */
  lemma StruckSlots(y: Pager.Memory, a: nat)
    ensures forall f: nat {:trigger Pager.SlotAt(Pager.Struck(y, a), f)} ::
      Pager.SlotAt(Pager.Struck(y, a), f) == if HasSlot(y, a, f) then Pager.Empty else Pager.SlotAt(y, f)
  {
    var mine := set f | f in y.slots && y.slots[f].Occupied? && y.slots[f].asid == a;
    forall f: nat
      ensures Pager.SlotAt(Pager.Struck(y, a), f) == if HasSlot(y, a, f) then Pager.Empty else Pager.SlotAt(y, f)
    {
      assert f in mine <==> HasSlot(y, a, f);
    }
  }

  /** Which entries striking a process out wrecks. */
  lemma StruckEntries(y: Pager.Memory, a: nat)
    ensures forall b: nat, g: nat {:trigger Pager.PteAt(Pager.Struck(y, a), b, g)} ::
      Pager.PteAt(Pager.Struck(y, a), b, g) ==
        if b == a && Pager.PteAt(y, b, g).Valid? && HasPage(y, a, g) then Pager.Wrecked else Pager.PteAt(y, b, g)
  {
    var mine := set f | f in y.slots && y.slots[f].Occupied? && y.slots[f].asid == a;
    var pages := set f | f in mine :: y.slots[f].page;
    forall b: nat, g: nat
      ensures Pager.PteAt(Pager.Struck(y, a), b, g) ==
        if b == a && Pager.PteAt(y, b, g).Valid? && HasPage(y, a, g) then Pager.Wrecked else Pager.PteAt(y, b, g)
    {
      HeldPages(y, a, g, mine, pages);
    }
  }

  lemma HeldPages(y: Pager.Memory, a: nat, g: nat, mine: set<nat>, pages: set<nat>)
    requires mine == set f | f in y.slots && y.slots[f].Occupied? && y.slots[f].asid == a
    requires pages == set f | f in mine :: y.slots[f].page
    ensures g in pages <==> HasPage(y, a, g)
    ensures HasPage(y, a, g) ==> mine != {}
  {
    if HasPage(y, a, g) {
      var f: nat :| Pager.SlotAt(y, f) == Pager.Occupied(a, g);
      assert f in mine && y.slots[f].page == g;
    }
    if g in pages {
      var f :| f in mine && y.slots[f].page == g;
      assert Pager.SlotAt(y, f) == Pager.Occupied(a, g);
    }
  }
}
