/** The code as shipped, where freeing a block leaves its semaphore address in it:
    a run to a state in which such a block is next to be reused. */
module Shipped {
  import opened Sequences
  import opened Pcbs
  import Asl
  import opened Nucleus
  import opened Invariant
  import opened Killing
  import opened Trees
  import opened Safety

  const NOW := 0

  function Input0(e: Event): Input { Input(e, NOW, NOW) }

  /** Three blocks: `a` the root, `b` its child, `c` the child of that. */
  ghost predicate Three(a: Pcb, b: Pcb, c: Pcb) { a != b && b != c && c != a }

  ghost function Tree1(a: Pcb): Forest { Node(a, Nil, Nil) }
  ghost function Tree2(a: Pcb, b: Pcb): Forest { Node(a, Node(b, Nil, Nil), Nil) }
  ghost function Tree3(a: Pcb, b: Pcb, c: Pcb): Forest { Node(a, Node(b, Node(c, Nil, Nil), Nil), Nil) }

  lemma TreeFacts(a: Pcb, b: Pcb, c: Pcb)
    requires Three(a, b, c)
    ensures Adopt(Tree1(a), a, b) == Tree2(a, b)
    ensures Adopt(Tree2(a, b), b, c) == Tree3(a, b, c)
    ensures Post(KidsOf(Tree3(a, b, c), b)) == [c] && Prune(Tree3(a, b, c), b) == Tree1(a)
  {
    var n := Node(b, Nil, Nil);
    var l := Node(c, Nil, Nil);
    var d := Node(b, l, Nil);
    assert Post(Nil) == [] && Post(n) == [b] && Post(l) == [c];
    assert Adopt(Nil, b, c) == Nil && Adopt(n, b, c) == d && Adopt(Nil, a, b) == Nil;
    assert Post(d) == [c, b];
    assert KidsOf(d, b) == l && Prune(d, b) == Nil && Prune(Nil, b) == Nil;
  }

  /** The state common to the run: no time passes, and the sheets stay blank. */
  ghost function Still(a: Pcb, b: Pcb, c: Pcb, k: Kern, flag: bool, timer: int, mode: Mode, dispatches: nat): State {
    State(k, map[a := NO_VECTORS, b := NO_VECTORS, c := NO_VECTORS], map[a := 0, b := 0, c := 0],
          INTERVALTIME, NOW, flag, timer, mode, NOW, 0, dispatches)
  }

  ghost function Zeros(): seq<int> { seq(MAXSEMA, _ => 0) }

  /** The semaphore of the clock, and an address beyond the device semaphores. */
  ghost function ClockAt(base: nat): nat { base + WORDLEN * CLCKTIMER }
  function Beyond(base: nat): nat { base + WORDLEN * MAXSEMA }

  ghost function Tags(a: Pcb, b: Pcb, c: Pcb, forA: nat,
    forC: nat): map<Pcb, nat> { map[a := forA, b := NULL, c := forC] }

  ghost function Kern0(a: Pcb, b: Pcb, c: Pcb, base: nat): Kern {
    Kern({a, b, c}, base, false, [b, c], [], a, map[], Tree1(a), Tags(a, b, c, NULL, NULL), Zeros(), map[], 1, 0)
  }

  ghost function Kern1(a: Pcb, b: Pcb, c: Pcb, base: nat): Kern {
    Kern({a, b, c}, base, false, [c], [b], a, map[], Tree2(a, b), Tags(a, b, c, NULL, NULL), Zeros(), map[], 2, 0)
  }

  ghost function Kern2(a: Pcb, b: Pcb, c: Pcb, base: nat): Kern {
    Kern({a, b, c}, base, false, [c], [], b, map[ClockAt(base) := [a]], Tree2(a, b), Tags(a, b, c, ClockAt(base), NULL),
         Zeros()[CLCKTIMER := -1], map[], 2, 1)
  }

  ghost function Kern3(a: Pcb, b: Pcb, c: Pcb, base: nat): Kern {
    Kern2(a, b, c, base).(free := [], ready := [c], tree := Tree3(a, b, c), procCount := 3)
  }

  ghost function Kern4(a: Pcb, b: Pcb, c: Pcb, base: nat): Kern {
    Kern3(a, b, c, base).(ready := [b], cur := c)
  }

  ghost function Kern5(a: Pcb, b: Pcb, c: Pcb, base: nat): Kern {
    Kern3(a, b, c, base).(ready := [], cur := b, asl := map[ClockAt(base) := [a], Beyond(base) := [c]],
      semAdd := Tags(a, b, c, ClockAt(base), Beyond(base)), words := map[Beyond(base) := -1])
  }

  ghost function Kern6(a: Pcb, b: Pcb, c: Pcb, base: nat): Kern {
    Kern5(a, b, c, base).(free := [c, b], cur := null, asl := map[ClockAt(base) := [a]], tree := Tree1(a),
      words := map[Beyond(base) := 0], procCount := 1)
  }

  ghost function Kern7(a: Pcb, b: Pcb, c: Pcb, base: nat): Kern {
    Kern6(a, b, c, base).(cur := a, asl := map[], semAdd := Tags(a, b, c, NULL, Beyond(base)), dev := Zeros(),
      softBlock := 0)
  }

  lemma Step0(a: Pcb, b: Pcb, c: Pcb, base: nat)
    requires Three(a, b, c)
    ensures Booted([a, b, c], base, false, map[], NOW)
      == Still(a, b, c, Kern0(a, b, c, base), false, QUANTUM, Running, 1)
  {
    assert Elements([a, b, c]) == {a, b, c};
    var s := Initial([a, b, c], base, false, map[]);
    assert s.k.semAdd == Tags(a, b, c, NULL, NULL);
    assert s.vec == map[a := NO_VECTORS, b := NO_VECTORS, c := NO_VECTORS];
    assert s.time == map[a := 0, b := 0, c := 0];
  }

  lemma BlankWiped(a: Pcb, b: Pcb, c: Pcb, k: Kern, flag: bool, timer: int, mode: Mode, n: nat, family: seq<Pcb>)
    ensures var s := Still(a, b, c, k, flag, timer, mode, n); Wiped(s, family) == s
  {
    var s := Still(a, b, c, k, flag, timer, mode, n);
    assert Wiped(s, family).time == s.time && Wiped(s, family).vec == s.vec;
  }

  /** `a` makes `b`. */
  lemma Step1(a: Pcb, b: Pcb, c: Pcb, base: nat)
    requires Three(a, b, c)
    ensures Step(Still(a, b, c, Kern0(a, b, c, base), false, QUANTUM, Running, 1), Input0(Create))
      == Still(a, b, c, Kern1(a, b, c, base), false, QUANTUM, Running, 1)
  {
    TreeFacts(a, b, c);
    BlankWiped(a, b, c, Kern0(a, b, c, base), false, QUANTUM, Running, 1, [b]);
  }

  /** The charge of no time. */
  lemma NoCharge(a: Pcb, b: Pcb, c: Pcb, k: Kern, flag: bool, timer: int, mode: Mode, n: nat)
    ensures var s := Still(a, b, c, k, flag, timer, mode, n); Charge(s, NOW) == s
  {
    var s := Still(a, b, c, k, flag, timer, mode, n);
    if k.cur != null && k.cur in s.time {
      assert s.time[k.cur := s.time[k.cur] + 0] == s.time;
    }
  }

  /** `a` waits for the clock, and `b` runs. */
  lemma Step2(a: Pcb, b: Pcb, c: Pcb, base: nat)
    requires Three(a, b, c)
    ensures Step(Still(a, b, c, Kern1(a, b, c, base), false, QUANTUM, Running, 1), Input0(Clock))
      == Still(a, b, c, Kern2(a, b, c, base), false, QUANTUM, Running, 2)
  {
    var k := Kern1(a, b, c, base);
    var s := Still(a, b, c, k, false, QUANTUM, Running, 1);
    NoCharge(a, b, c, k, false, QUANTUM, Running, 1);
    assert [] + [a] == [a] && k.asl[ClockAt(base) := [a]] == map[ClockAt(base) := [a]];
    assert k.semAdd[a := ClockAt(base)] == Tags(a, b, c, ClockAt(base), NULL);
    assert |k.pcbs| > 0 by { assert a in k.pcbs; }
    hide Charge;
    var d := AddDev(k, CLCKTIMER, -1);
    assert BlockCur(d, ClockAt(base)).(softBlock := 1).(ready := [], cur := b) == Kern2(a, b, c, base);
  }

  /** `b` makes `c`. */
  lemma Step3(a: Pcb, b: Pcb, c: Pcb, base: nat)
    requires Three(a, b, c)
    ensures Step(Still(a, b, c, Kern2(a, b, c, base), false, QUANTUM, Running, 2), Input0(Create))
      == Still(a, b, c, Kern3(a, b, c, base), false, QUANTUM, Running, 2)
  {
    TreeFacts(a, b, c);
    BlankWiped(a, b, c, Kern2(a, b, c, base), false, QUANTUM, Running, 2, [c]);
  }

  /** The quantum of `b` ends, and `c` runs. */
  lemma Step4(a: Pcb, b: Pcb, c: Pcb, base: nat)
    requires Three(a, b, c)
    ensures Step(Still(a, b, c, Kern3(a, b, c, base), false, QUANTUM, Running, 2), Input0(Timer))
      == Still(a, b, c, Kern4(a, b, c, base), false, QUANTUM, Running, 3)
  {
    NoCharge(a, b, c, Kern3(a, b, c, base), false, QUANTUM, Running, 2);
    assert ([c] + [b])[1..] == [b];
    hide Charge, Tick;
  }

  /** `c` blocks on a semaphore of its own, and `b` runs. */
  lemma Step5(a: Pcb, b: Pcb, c: Pcb, base: nat)
    requires Three(a, b, c) && base > NULL
    ensures Step(Still(a, b, c, Kern4(a, b, c, base), false, QUANTUM, Running, 3), Input0(P(Beyond(base))))
      == Still(a, b, c, Kern5(a, b, c, base), false, QUANTUM, Running, 4)
  {
    var k, w := Kern4(a, b, c, base), Beyond(base);
    NoCharge(a, b, c, k, false, QUANTUM, Running, 3);
    assert [] + [c] == [c] && k.asl[w := [c]] == map[ClockAt(base) := [a], w := [c]];
    assert k.semAdd[c := w] == Tags(a, b, c, ClockAt(base), w);
    assert |k.pcbs| > |k.asl| by { assert {a, b} < k.pcbs; assert |{a, b}| == 2; assert k.asl.Keys == {ClockAt(base)}; }
    hide Charge;
    assert BlockCur(AddWord(k, w, -1), w).(ready := [], cur := b) == Kern5(a, b, c, base);
  }

  /** `b` terminates, and takes `c` with it. */
  lemma Step6(a: Pcb, b: Pcb, c: Pcb, base: nat)
    requires Three(a, b, c) && base > NULL
    ensures Step(Still(a, b, c, Kern5(a, b, c, base), false, QUANTUM, Running, 4), Input0(Terminate))
      == Still(a, b, c, Kern6(a, b, c, base), true, INTERVALTIME, Waiting, 4)
  {
    var k := Kern5(a, b, c, base);
    TreeFacts(a, b, c);
    BlankWiped(a, b, c, k, false, QUANTUM, Running, 4, [c, b]);
    assert Nucleus.Family(k) == [c, b];
    NukeBoth(a, b, c, base);
    hide Nuke, KillOne, KillAll, Nucleus.Family, Wiped, Prune, KidsOf, Post;
  }

  lemma NukeBoth(a: Pcb, b: Pcb, c: Pcb, base: nat)
    requires Three(a, b, c) && base > NULL
    ensures Nuke(Kern5(a, b, c, base)) == Kern6(a, b, c, base)
  {
    var k := Kern5(a, b, c, base);
    TreeFacts(a, b, c);
    assert Nucleus.Family(k) == [c, b];
    KillBlocked(a, b, c, base);
    KillBoth(k, c, b);
    hide KillOne, KillAll, Nucleus.Family, Wiped;
  }

  lemma KillBlocked(a: Pcb, b: Pcb, c: Pcb, base: nat)
    requires Three(a, b, c) && base > NULL
    ensures KillOne(KillOne(Kern5(a, b, c, base), c), b) == Kern5(a, b, c, base).(
      free := [c, b], asl := map[ClockAt(base) := [a]], words := map[Beyond(base) := 0], procCount := 1)
  {
    var k, w := Kern5(a, b, c, base), Beyond(base);
    var k1 := KillOne(k, c);
    assert Without([c], {c}) == [] by { WithoutAt([c], 0); }
    assert k.asl - {w} == map[ClockAt(base) := [a]];
    assert k.semAdd[c := w] == k.semAdd && k.semAdd[b := NULL] == k.semAdd;
    assert k1 == k.(free := [c], asl := map[ClockAt(base) := [a]], words := map[w := 0], procCount := 2);
  }

  lemma KillBoth(k: Kern, p: Pcb, q: Pcb)
    ensures KillAll(k, [p, q]) == KillOne(KillOne(k, p), q)
  {
    hide KillOne;
    assert [p, q][..1] == [p] && [p][..0] == [];
    assert KillAll(k, []) == k && KillAll(k, [p]) == KillOne(k, p);
  }

  /** The clock ticks, and `a` runs again. */
  lemma Step7(a: Pcb, b: Pcb, c: Pcb, base: nat)
    requires Three(a, b, c) && base > NULL
    ensures Step(Still(a, b, c, Kern6(a, b, c, base), true, INTERVALTIME, Waiting, 4), Input0(Timer))
      == Still(a, b, c, Kern7(a, b, c, base), false, QUANTUM, Running, 5)
  {
    var k := Kern6(a, b, c, base);
    NoCharge(a, b, c, k, true, INTERVALTIME, Waiting, 4);
    TickOne(a, b, c, base);
    assert k.dev[CLCKTIMER := 0] == Zeros();
    hide Charge, Tick;
  }

  lemma TickOne(a: Pcb, b: Pcb, c: Pcb, base: nat)
    requires Three(a, b, c) && base > NULL
    ensures var k := Kern6(a, b, c, base);
      Tick(k).(dev := Zeros(), ready := [], cur := a) == Kern7(a, b, c,
        base) && Tick(k).ready == [a] && Tick(k).cur == null && Tick(k).dev == k.dev
  {
    var k := Kern6(a, b, c, base);
    assert k.asl - {ClockAt(base)} == map[];
    assert [] + [a] == [a];
    assert (map p | p in k.semAdd :: if p in [a] then NULL else k.semAdd[p]) == Tags(a, b, c, NULL, Beyond(base));
  }

  lemma RunCons(s: State, x: Input, xs: seq<Input>, t: State)
    requires |s.k.dev| == MAXSEMA && Enabled(s, x) && CleanSpawn(s, x) && Run(Step(s, x), xs, t) &&
      CleanRun(Step(s, x), xs)
    ensures Run(s, [x] + xs, t) && CleanRun(s, [x] + xs)
  {
    assert ([x] + xs)[1..] == xs;
    hide Enabled, Step;
  }

  /** The seven events that bring it about. */
  ghost function Script(base: nat): seq<Input> {
    [Input0(Create)] + ([Input0(Clock)] + ([Input0(Create)] + ([Input0(Timer)] + ([Input0(P(Beyond(base)))]
      + ([Input0(Terminate)] + ([Input0(Timer)] + []))))))
  }

  /** As shipped, three blocks and seven events from the boot on, the block of a
      process killed while it was blocked is next to be reused, address and all. */
  lemma StaleBlockIsReachable(a: Pcb, b: Pcb, c: Pcb, base: nat) returns (t: State)
    requires Three(a, b, c) && base > NULL
    ensures Run(Booted([a, b, c], base, false, map[], NOW), Script(base), t)
    ensures t.mode == Running && !t.k.wash && t.k.free == [c, b] && Tag(t.k, c) != NULL && t.k.cur == a &&
      t.k.tree == Tree1(a)
    ensures Inv(t)
  {
    hide Step, Booted, BlockCur, Enabled, Run, Tags, Zeros, Inv;
    t := Still(a, b, c, Kern7(a, b, c, base), false, QUANTUM, Running, 5);
    Step0(a, b, c, base);
    Step1(a, b, c, base);
    Step2(a, b, c, base);
    Step3(a, b, c, base);
    Step4(a, b, c, base);
    Step5(a, b, c, base);
    Step6(a, b, c, base);
    Step7(a, b, c, base);
    Allowed(a, b, c, base);
    Stale(a, b, c, base);
    hide Kern0, Kern1, Kern2, Kern3, Kern4, Kern5, Kern6, Kern7, Still;
    RunNothing(t);
    var e6: seq<Input> := [Input0(Timer)] + [];
    var e5 := [Input0(Terminate)] + e6;
    var e4 := [Input0(P(Beyond(base)))] + e5;
    var e3 := [Input0(Timer)] + e4;
    var e2 := [Input0(Create)] + e3;
    var e1 := [Input0(Clock)] + e2;
    RunCons(Still(a, b, c, Kern6(a, b, c, base), true, INTERVALTIME, Waiting, 4), Input0(Timer), [], t);
    RunCons(Still(a, b, c, Kern5(a, b, c, base), false, QUANTUM, Running, 4), Input0(Terminate), e6, t);
    RunCons(Still(a, b, c, Kern4(a, b, c, base), false, QUANTUM, Running, 3), Input0(P(Beyond(base))), e5, t);
    RunCons(Still(a, b, c, Kern3(a, b, c, base), false, QUANTUM, Running, 2), Input0(Timer), e4, t);
    RunCons(Still(a, b, c, Kern2(a, b, c, base), false, QUANTUM, Running, 2), Input0(Create), e3, t);
    RunCons(Still(a, b, c, Kern1(a, b, c, base), false, QUANTUM, Running, 1), Input0(Clock), e2, t);
    RunCons(Still(a, b, c, Kern0(a, b, c, base), false, QUANTUM, Running, 1), Input0(Create), e1, t);
    assert Inv(Booted([a, b, c], base, false, map[], NOW)) by { BootedInv([a, b, c], base, false, map[], NOW); }
    hide Inv, CleanRun;
    RunKeeps(Booted([a, b, c], base, false, map[], NOW), Script(base), t);
  }

  lemma SameBlocks(a: Pcb, b: Pcb, c: Pcb, base: nat)
    ensures Kern0(a, b, c, base).pcbs == Kern1(a, b, c, base).pcbs == {a, b, c}
    ensures Kern2(a, b, c, base).pcbs == Kern3(a, b, c, base).pcbs == {a, b, c}
    ensures Kern4(a, b, c, base).pcbs == Kern5(a, b, c, base).pcbs == {a, b, c}
    ensures Kern6(a, b, c, base).pcbs == Kern7(a, b, c, base).pcbs == {a, b, c}
    ensures forall k, flag, timer, mode, n {:trigger Still(a, b, c, k, flag, timer, mode, n)} ::
      Still(a, b, c, k, flag, timer, mode, n).k == k
  {
  }

  lemma RunNothing(t: State)
    ensures Run(t, [], t) && CleanRun(t, [])
  {
  }

  lemma Stale(a: Pcb, b: Pcb, c: Pcb, base: nat)
    requires Three(a, b, c) && base > NULL
    ensures var k := Kern7(a, b, c, base);
      !k.wash && k.free == [c, b] && Tag(k, c) != NULL && k.cur == a && k.tree == Tree1(a)
  {
  }

  lemma Allowed(a: Pcb, b: Pcb, c: Pcb, base: nat)
    requires base > NULL
    ensures |Zeros()| == MAXSEMA
    ensures Enabled(Still(a, b, c, Kern0(a, b, c, base), false, QUANTUM, Running, 1), Input0(Create))
    ensures CleanSpawn(Still(a, b, c, Kern0(a, b, c, base), false, QUANTUM, Running, 1), Input0(Create))
    ensures CleanSpawn(Still(a, b, c, Kern2(a, b, c, base), false, QUANTUM, Running, 2), Input0(Create))
    ensures forall s, e: Event {:trigger CleanSpawn(s, Input0(e))} :: !e.Create? ==> CleanSpawn(s, Input0(e))
    ensures Enabled(Still(a, b, c, Kern1(a, b, c, base), false, QUANTUM, Running, 1), Input0(Clock))
    ensures Enabled(Still(a, b, c, Kern2(a, b, c, base), false, QUANTUM, Running, 2), Input0(Create))
    ensures Enabled(Still(a, b, c, Kern3(a, b, c, base), false, QUANTUM, Running, 2), Input0(Timer))
    ensures Enabled(Still(a, b, c, Kern4(a, b, c, base), false, QUANTUM, Running, 3), Input0(P(Beyond(base))))
    ensures Enabled(Still(a, b, c, Kern5(a, b, c, base), false, QUANTUM, Running, 4), Input0(Terminate))
    ensures Enabled(Still(a, b, c, Kern6(a, b, c, base), true, INTERVALTIME, Waiting, 4), Input0(Timer))
    ensures |Kern0(a, b, c, base).dev| == |Kern1(a, b, c, base).dev| == MAXSEMA
    ensures |Kern2(a, b, c, base).dev| == |Kern3(a, b, c, base).dev| == MAXSEMA
    ensures |Kern4(a, b, c, base).dev| == |Kern5(a, b, c, base).dev| == |Kern6(a, b, c, base).dev| == MAXSEMA
  {
  }
}
