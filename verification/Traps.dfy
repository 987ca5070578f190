/** Trap areas: who is killed by a trap and who is not, and what SYS5 sets. */
module Traps {
  import opened Sequences
  import opened Pcbs
  import opened Nucleus
  import opened Invariant
  import opened Killing
  import opened Safety
  import Accounts
  import Trees

  const TLBTRAP: int := 0
  const PROGTRAP: int := 1
  const SYSTRAP: int := 2

  /** The running process dies in the step from `s` to `t`. */
  ghost predicate Dies(s: State, t: State) {
    s.k.cur != null && s.k.cur in t.k.free
  }

  lemma DeathFrees(s: State, t: int)
    requires Inv(s) && s.mode == Running
    ensures Dies(s, Die(s, t)) && !Dies(s, s)
  {
    hide Core, Nuke, Nucleus.Family, GetNewJob, Removed, Wiped;
    var family := Nucleus.Family(s.k);
    NukeKeeps(s.k);
    Accounts.DispatchSheets(Wiped(s, family).(k := Nuke(s.k)), t);
    Accounts.FreedFamily(s.k, Nuke(s.k), family);
    CurrentLives(s.k);
    Headed(s.k);
  }

  lemma Headed(k: Kern)
    requires k.cur != null
    ensures k.cur in Nucleus.Family(k)
  {
  }

  /** A TLB trap kills if and only if the process has set no area for TLB traps, and
      changes nothing of the nucleus otherwise. */
  lemma TlbTrapKillsIff(s: State, x: Input)
    requires Inv(s) && |s.k.dev| == MAXSEMA && Enabled(s, x) && x.e == Trapped(TlbTrap)
    ensures s.k.cur != null && s.k.cur in s.vec
    ensures Dies(s, Step(s, x)) <==> s.vec[s.k.cur].oldTlb == NULL
    ensures s.vec[s.k.cur].oldTlb != NULL ==> Step(s, x) == s
  {
    TrapKillsIff(s, x, TlbTrap);
  }

  lemma ProgTrapKillsIff(s: State, x: Input)
    requires Inv(s) && |s.k.dev| == MAXSEMA && Enabled(s, x) && x.e == Trapped(ProgTrap)
    ensures s.k.cur != null && s.k.cur in s.vec
    ensures Dies(s, Step(s, x)) <==> s.vec[s.k.cur].oldPrgm == NULL
    ensures s.vec[s.k.cur].oldPrgm != NULL ==> Step(s, x) == s
  {
    TrapKillsIff(s, x, ProgTrap);
  }

  lemma SysTrapKillsIff(s: State, x: Input)
    requires Inv(s) && |s.k.dev| == MAXSEMA && Enabled(s, x) && x.e == Trapped(SysTrap)
    ensures s.k.cur != null && s.k.cur in s.vec
    ensures Dies(s, Step(s, x)) <==> s.vec[s.k.cur].oldSys == NULL
    ensures s.vec[s.k.cur].oldSys != NULL ==> Step(s, x) == s
  {
    TrapKillsIff(s, x, SysTrap);
  }

  lemma TrapKillsIff(s: State, x: Input, trap: Trap)
    requires Inv(s) && |s.k.dev| == MAXSEMA && Enabled(s, x) && x.e == Trapped(trap)
    ensures s.k.cur != null && s.k.cur in s.vec
    ensures Dies(s, Step(s, x)) <==> OldVector(s.vec[s.k.cur], trap) == NULL
    ensures OldVector(s.vec[s.k.cur], trap) != NULL ==> Step(s, x) == s
  {
    HasSheet(s);
    DeathFrees(s, x.t2);
    hide Inv, Die, Dies, OldVector;
  }

  lemma HasSheet(s: State)
    requires Inv(s) && s.mode == Running
    ensures s.k.cur != null && s.k.cur in s.vec && s.k.cur in s.time && s.vec.Keys == s.time.Keys == s.k.pcbs
  {
    CurrentLives(s.k);
    hide Core;
  }

  // ------------------------------------------------------------------------ SYS5

  /** SYS5 for TLB traps: sets the area for TLB traps, or that for program traps when
      the first is set, or that for the others when both are; kills when all are. */
  lemma SesvForTlb(s: State, x: Input, o: nat, n: nat)
    requires Inv(s) && |s.k.dev| == MAXSEMA && Enabled(s, x) && x.e == SetTrap(TLBTRAP, o, n)
    ensures s.k.cur != null && s.k.cur in s.vec
    ensures var v := s.vec[s.k.cur]; Dies(s, Step(s, x)) <==> v.oldTlb != NULL && v.oldPrgm != NULL && v.oldSys != NULL
    ensures var v := s.vec[s.k.cur];
      (v.oldTlb == NULL || v.oldPrgm == NULL || v.oldSys == NULL) ==> Sets(s, Step(s, x),
        if v.oldTlb == NULL then Vectors(o, n, v.oldPrgm, v.newPrgm, v.oldSys, v.newSys)
        else if v.oldPrgm == NULL then Vectors(v.oldTlb, v.newTlb, o, n, v.oldSys, v.newSys)
        else Vectors(v.oldTlb, v.newTlb, v.oldPrgm, v.newPrgm, o, n))
  {
    hide *;
    RunsNow(s, x);
    HasSheet(s);
    DeathFrees(s, x.t2);
    Spares(s, Step(s, x));
    SesvStep(s, x, Step(s, x));
  }

  lemma SesvForProg(s: State, x: Input, o: nat, n: nat)
    requires Inv(s) && |s.k.dev| == MAXSEMA && Enabled(s, x) && x.e == SetTrap(PROGTRAP, o, n)
    ensures s.k.cur != null && s.k.cur in s.vec
    ensures var v := s.vec[s.k.cur]; Dies(s, Step(s, x)) <==> v.oldPrgm != NULL && v.oldSys != NULL
    ensures var v := s.vec[s.k.cur];
      (v.oldPrgm == NULL || v.oldSys == NULL) ==> Sets(s, Step(s, x),
        if v.oldPrgm == NULL then Vectors(v.oldTlb, v.newTlb, o, n, v.oldSys, v.newSys)
        else Vectors(v.oldTlb, v.newTlb, v.oldPrgm, v.newPrgm, o, n))
  {
    hide *;
    RunsNow(s, x);
    HasSheet(s);
    DeathFrees(s, x.t2);
    Spares(s, Step(s, x));
    SesvStep(s, x, Step(s, x));
  }

  lemma SesvForSys(s: State, x: Input, o: nat, n: nat)
    requires Inv(s) && |s.k.dev| == MAXSEMA && Enabled(s, x) && x.e == SetTrap(SYSTRAP, o, n)
    ensures s.k.cur != null && s.k.cur in s.vec
    ensures var v := s.vec[s.k.cur]; Dies(s, Step(s, x)) <==> v.oldSys != NULL
    ensures var v := s.vec[s.k.cur];
      v.oldSys == NULL ==> Sets(s, Step(s, x), Vectors(v.oldTlb, v.newTlb, v.oldPrgm, v.newPrgm, o, n))
  {
    hide *;
    RunsNow(s, x);
    HasSheet(s);
    DeathFrees(s, x.t2);
    Spares(s, Step(s, x));
    SesvStep(s, x, Step(s, x));
  }

  /** Any other type kills. */
  lemma SesvForOther(s: State, x: Input)
    requires Inv(s) && |s.k.dev| == MAXSEMA && Enabled(s, x) && x.e.SetTrap?
    requires x.e.first != TLBTRAP && x.e.first != PROGTRAP && x.e.first != SYSTRAP
    ensures Dies(s, Step(s, x))
  {
    hide *;
    RunsNow(s, x);
    HasSheet(s);
    DeathFrees(s, x.t2);
    Spares(s, Step(s, x));
    SesvStep(s, x, Step(s, x));
  }

  lemma RunsNow(s: State, x: Input)
    requires Enabled(s, x) && (x.e.SetTrap? || x.e.Trapped?)
    ensures s.mode == Running
  {
  }

  /** What leaves the lists alone kills nobody. */
  lemma Spares(s: State, n: State)
    requires !Dies(s, s)
    ensures n.k == s.k ==> !Dies(s, n)
  {
  }

  /** The cases of SYS5, by type. */
  lemma SesvStep(s: State, x: Input, r: State)
    requires |s.k.dev| == MAXSEMA && x.e.SetTrap? && s.k.cur != null && s.k.cur in s.vec && r == Step(s, x)
    ensures TLBTRAP == 0 && PROGTRAP == 1 && SYSTRAP == 2 && NULL == 0
    ensures var v, f, o, n := s.vec[s.k.cur], x.e.first, x.e.o, x.e.n;
      if f == 0 && v.oldTlb == NULL then
        Sets(s, r, Vectors(o, n, v.oldPrgm, v.newPrgm, v.oldSys, v.newSys)) && r.k == s.k
      else if 0 <= f <= 1 && v.oldPrgm == NULL then
        Sets(s, r, Vectors(v.oldTlb, v.newTlb, o, n, v.oldSys, v.newSys)) && r.k == s.k
      else if 0 <= f <= 2 && v.oldSys == NULL then
        Sets(s, r, Vectors(v.oldTlb, v.newTlb, v.oldPrgm, v.newPrgm, o, n)) && r.k == s.k
      else r == Die(s, x.t2)
  {
    hide Die;
  }

  /** `t` is `s` with other vectors for the running process. */
  ghost predicate Sets(s: State, t: State, v: Vectors)
    requires s.k.cur != null
  {
    t == s.(vec := s.vec[s.k.cur := v])
  }

  /** After SYS5 for a type of trap whose area was not set, that trap no longer
      kills the process. */
  lemma SetThenTrapped(s: State, x: Input, y: Input)
    requires Inv(s) && |s.k.dev| == MAXSEMA && Enabled(s, x) && x.e.SetTrap? && x.e.o != NULL
    requires s.k.cur != null && s.k.cur in s.vec
    requires
      || (x.e.first == TLBTRAP && s.vec[s.k.cur].oldTlb == NULL && y.e == Trapped(TlbTrap))
      || (x.e.first == PROGTRAP && s.vec[s.k.cur].oldPrgm == NULL && y.e == Trapped(ProgTrap))
      || (x.e.first == SYSTRAP && s.vec[s.k.cur].oldSys == NULL && y.e == Trapped(SysTrap))
    requires |Step(s, x).k.dev| == MAXSEMA && Enabled(Step(s, x), y)
    ensures Step(s, x).k.cur == s.k.cur && Step(Step(s, x), y) == Step(s, x) && !Dies(s, Step(s, x))
  {
    hide *;
    Alive(s);
    AreaSet(s, x, Step(s, x), y);
    Spared(Step(s, x), y);
  }

  lemma Alive(s: State)
    requires Inv(s) && s.k.cur != null
    ensures s.k.cur !in s.k.free
  {
    CurrentLives(s.k);
  }

  /** The trap `y` of the running process finds an area. */
  ghost predicate HasArea(s: State, y: Input) {
    && s.k.cur != null && s.k.cur in s.vec
    && ((y.e == Trapped(TlbTrap) && s.vec[s.k.cur].oldTlb != NULL)
        || (y.e == Trapped(ProgTrap) && s.vec[s.k.cur].oldPrgm != NULL)
        || (y.e == Trapped(SysTrap) && s.vec[s.k.cur].oldSys != NULL))
  }

  lemma AreaSet(s: State, x: Input, n: State, y: Input)
    requires |s.k.dev| == MAXSEMA && x.e.SetTrap? && x.e.o != NULL && n == Step(s, x)
    requires s.k.cur != null && s.k.cur in s.vec && s.k.cur !in s.k.free
    requires
      || (x.e.first == TLBTRAP && s.vec[s.k.cur].oldTlb == NULL && y.e == Trapped(TlbTrap))
      || (x.e.first == PROGTRAP && s.vec[s.k.cur].oldPrgm == NULL && y.e == Trapped(ProgTrap))
      || (x.e.first == SYSTRAP && s.vec[s.k.cur].oldSys == NULL && y.e == Trapped(SysTrap))
    ensures n.k.cur == s.k.cur && HasArea(n, y) && !Dies(s, n)
  {
    hide Die;
  }

  lemma Spared(s: State, y: Input)
    requires |s.k.dev| == MAXSEMA && HasArea(s, y)
    ensures Step(s, y) == s
  {
    hide Die;
  }

  // ----------------------------------------------------------------------- SYS1

  /** SYS1 changes nothing if no block is free; otherwise the block free longest becomes
      a process without trap areas and without time, the last of the ready, and the
      newest child of its creator, who goes on. No other sheet changes. */
  lemma CreateMakes(s: State, x: Input)
    requires Inv(s) && |s.k.dev| == MAXSEMA && Enabled(s, x) && x.e == Create
    ensures s.k.free == [] ==> Step(s, x) == s
    ensures s.k.free != [] ==> var n, p := Step(s, x), s.k.free[0];
      && n.k.cur == s.k.cur && n.k.free == s.k.free[1..] && n.k.ready == s.k.ready + [p]
      && p in n.time && p in n.vec && n.time == s.time[p := 0]
      && n.vec == s.vec[p := Vectors(NULL, NULL, NULL, NULL, NULL, NULL)]
      && s.k.cur != null && KidsOf(n.k.tree, s.k.cur) == Node(p, Nil, KidsOf(s.k.tree, s.k.cur))
  {
    HasSheet(s);
    FirstFree(s);
    hide Inv, Enabled;
    if s.k.free != [] {
      Trees.ProperIff(s.k.tree);
      Trees.AdoptKids(s.k.tree, s.k.cur, s.k.free[0]);
      hide KidsOf, Adopt;
      WipesOne(s, s.k.free[0]);
      hide Wiped;
    }
  }

  lemma FirstFree(s: State)
    requires Inv(s) && s.k.cur != null
    ensures NoDup(Post(s.k.tree)) && s.k.cur in Post(s.k.tree)
    ensures s.k.free != [] ==> s.k.free[0] in s.vec && s.k.free[0] !in Post(s.k.tree) && s.k.free[0] != s.k.cur
  {
    CurrentLives(s.k);
    hide FreeOk, AslOk, Placed, ReadyOk, Invariant.Semaphores, ModeOk, NoDup;
    assert s.k.free != [] ==> s.k.free[0] in s.k.free;
    InTable(s);
  }

  lemma InTable(s: State)
    requires Inv(s)
    ensures forall p :: p in s.k.free ==> p in s.vec
  {
  }

  lemma WipesOne(s: State, p: Pcb)
    requires p in s.time && p in s.vec
    ensures Wiped(s, [p]) == s.(time := s.time[p := 0], vec := s.vec[p := NO_VECTORS])
  {
  }
}
