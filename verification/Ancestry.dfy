/** The process tree over time: who is killed with whom, and what becomes of the
    machine when the root goes. */
module Ancestry {
  import opened Sequences
  import opened Pcbs
  import opened Nucleus
  import opened Invariant
  import opened Killing
  import opened Trees
  import opened Safety
  import KernelFacts

  // --------------------------------------------------------------- descendants

  /** `p` is `n` generations below `c`. */
  ghost predicate Generations(f: Forest, c: Pcb, p: Pcb, n: nat) {
    if n == 0 then p == c else exists q :: q in Post(f) && p in Children(f, q) && Generations(f, c, q, n - 1)
  }

  lemma {:induction false} GenerationsBelow(f: Forest, c: Pcb, p: Pcb, n: nat)
    requires Proper(f) && c in Post(f) && Generations(f, c, p, n)
    ensures n == 0 || p in Post(KidsOf(f, c))
  {
    hide Proper, KidsOf, Post;
    if n > 0 {
      var q :| q in Post(f) && p in Children(f, q) && Generations(f, c, q, n - 1);
      GenerationsBelow(f, c, q, n - 1);
      if n > 1 {
        FamilyContains(f, c, q, p);
      }
    }
  }

  lemma {:induction false} Nested(f: Forest, c: Pcb, x: Pcb)
    requires Proper(f) && x in Post(KidsOf(f, c))
    ensures KidsOf(KidsOf(f, c), x) == KidsOf(f, x)
  {
    BelowTop(f, c);
    BelowTop(f.kids, c);
    BelowTop(f.older, c);
    if f.p != c {
      Nested(if c in Post(f.kids) then f.kids else f.older, c, x);
    }
  }

  lemma {:induction false} Descend(f: Forest, c: Pcb, g: Forest, p: Pcb, m: nat) returns (n: nat)
    requires Proper(f) && Proper(g) && p in Post(g) && m > 0
    requires forall x :: x in Post(g) ==> x in Post(f) && KidsOf(g, x) == KidsOf(f, x)
    requires forall x :: x in Names(g) ==> Generations(f, c, x, m)
    ensures n > 0 && Generations(f, c, p, n)
    decreases g
  {
    if p in Names(g) {
      n := m;
    } else if p in Post(g.kids) {
      forall x | x in Names(g.kids)
        ensures Generations(f, c, x, m + 1)
      {
        assert g.p in Post(f) && x in Children(f, g.p) && Generations(f, c, g.p, m);
      }
      n := Descend(f, c, g.kids, p, m + 1);
    } else {
      n := Descend(f, c, g.older, p, m);
    }
  }

  lemma MemberDescends(f: Forest, c: Pcb, p: Pcb) returns (n: nat)
    requires Proper(f) && c in Post(f) && p in Post(KidsOf(f, c))
    ensures Generations(f, c, p, n)
  {
    var g := KidsOf(f, c);
    PruneMembers(f, c);
    forall x | x in Post(g)
      ensures x in Post(f) && KidsOf(g, x) == KidsOf(f, x)
    {
      Nested(f, c, x);
    }
    forall x | x in Names(g)
      ensures Generations(f, c, x, 1)
    {
      assert c in Post(f) && x in Children(f, c) && Generations(f, c, c, 0);
    }
    n := Descend(f, c, g, p, 1);
  }

  /** The kill takes exactly the running process and its descendants, however far
      below it they are. */
  lemma FamilyIsDescendants(k: Kern, p: Pcb)
    requires OneTree(k) && k.cur != null && k.cur in Post(k.tree)
    ensures p in Nucleus.Family(k) <==> exists n :: Generations(k.tree, k.cur, p, n)
  {
    var f, c: Pcb := k.tree, k.cur;
    ProperIff(f);
    hide NoDup, Proper, Generations, KidsOf, Post;
    assert p in Nucleus.Family(k) <==> p == c || p in Post(KidsOf(f, c));
    if p == c {
      Itself(f, c);
      assert Generations(k.tree, k.cur, p, 0);
    } else if p in Post(KidsOf(f, c)) {
      var n := MemberDescends(f, c, p);
      assert Generations(k.tree, k.cur, p, n);
    } else {
      forall n: nat
        ensures !Generations(k.tree, k.cur, p, n)
      {
        if Generations(f, c, p, n) {
          GenerationsBelow(f, c, p, n);
          NoGeneration(f, c, p, n);
        }
      }
    }
  }

  lemma Itself(f: Forest, c: Pcb)
    ensures Generations(f, c, c, 0)
  {
  }

  lemma NoGeneration(f: Forest, c: Pcb, p: Pcb, n: nat)
    requires Generations(f, c, p, n)
    ensures n == 0 ==> p == c
  {
  }

  // ------------------------------------------------------------ parents and root

  /** Every live process but the top has exactly one parent, and it is live. */
  lemma OneLiveParent(k: Kern, p: Pcb) returns (q: Pcb)
    requires Core(k) && Live(k, p) && k.tree.Node? && p != k.tree.p
    ensures Live(k, q) && p in Children(k.tree, q)
    ensures forall r :: r in k.pcbs && p in Children(k.tree, r) ==> r == q
  {
    hide Places, Semaphores, NoDup;
    ProperIff(k.tree);
    assert Names(k.tree.older) == [] && Names(k.tree) == [k.tree.p];
    q := HasParent(k.tree, p);
    forall r | r in k.pcbs && p in Children(k.tree, r)
      ensures r == q
    {
      OneParent(k.tree, r, q, p);
    }
  }

  /** When the top of the tree terminates, or dies of a trap, nobody is left and
      the machine halts. */
  lemma TopEnds(s: State, t: int)
    requires Inv(s) && s.mode == Running && s.k.cur == s.k.tree.p && s.clock <= t
    ensures Die(s, t).mode == Halted && forall p :: p in s.k.pcbs ==> p in Die(s, t).k.free
  {
    hide NoDup, KillAll, Removed;
    NukeKeeps(s.k);
    NukeSameMachine(s.k);
    var k := Nuke(s.k);
    assert k.tree == Nil;
    NobodyLeft(k);
  }

  lemma NobodyLeft(k: Kern)
    requires Core(k) && k.tree == Nil && k.cur == null
    ensures k.procCount == 0 && k.ready == [] && forall p :: p in k.pcbs ==> p in k.free
  {
    CountsAreNat(k);
    hide Semaphores, AslOk, Placed, FreeOk, NoDup;
    assert Post(Nil) == [];
    assert (set p | p in k.pcbs && p !in k.free) == {};
    assert forall p :: p in k.pcbs ==> p in k.free;
    ReadyHead(k);
  }

  lemma ReadyHead(k: Kern)
    requires ReadyOk(k)
    ensures k.ready != [] ==> Live(k, k.ready[0])
  {
    hide NoDup;
    if k.ready != [] {
      assert k.ready[0] in k.ready;
    }
  }

  // ------------------------------------------------------------------ over steps

  /** What a step can do to the process tree. */
  ghost predicate TreeStep(s: State, r: State) {
    || r.k.tree == s.k.tree
    || (s.k.cur != null && s.k.free != [] && r.k.tree == Adopt(s.k.tree, s.k.cur, s.k.free[0]))
    || (s.k.cur != null && r.k.tree == Prune(s.k.tree, s.k.cur))
  }

  lemma DieTree(s: State, t: int)
    ensures s.k.cur != null ==> Die(s, t).k.tree == Prune(s.k.tree, s.k.cur)
    ensures s.k.cur == null ==> Die(s, t).k.tree == s.k.tree
  {
    hide Prune, Nucleus.Family, KillAll, GetNewJob;
    KernelFacts.DispatchTree(Wiped(s, Nucleus.Family(s.k)).(k := Nuke(s.k)), t);
  }

  lemma TreeSteps(s: State, x: Input)
    requires |s.k.dev| == MAXSEMA
    ensures TreeStep(s, Step(s, x))
  {
    hide Die, Adopt, Prune;
    if KernelFacts.ChangesFamilies(x.e) {
      DieTree(s, x.t2);
    } else {
      hide Step;
      KernelFacts.StepTree(s, x);
    }
  }

  /** No process outlives its parent, and none changes it: a survivor of a step
      whose parent was `q` still has `q`, alive, for its parent. */
  lemma ParentForLife(s: State, x: Input, q: Pcb, p: Pcb)
    requires Inv(s) && |s.k.dev| == MAXSEMA && Enabled(s, x) && CleanSpawn(s, x)
    requires p in Children(s.k.tree, q) && Live(Step(s, x).k, p)
    ensures Live(Step(s, x).k, q) && p in Children(Step(s, x).k.tree, q)
  {
    var r := Step(s, x);
    TreeSteps(s, x);
    StepKeeps(s, x);
    hide Step, Enabled, CleanSpawn, ModeOk, Sheets;
    TreesProper(s.k);
    TreesProper(r.k);
    ParentKept(s.k, r.k, q, p);
  }

  /** What `Core` says of the tree. */
  lemma TreesProper(k: Kern)
    requires Core(k)
    ensures Proper(k.tree) && (forall p :: p in k.pcbs ==> (Live(k, p) <==> p in Post(k.tree)))
    ensures forall p :: p in Post(k.tree) ==> p in k.pcbs
    ensures k.cur != null ==> k.cur in Post(k.tree)
    ensures k.free != [] ==> k.free[0] !in Post(k.tree)
  {
    hide Semaphores, AslOk, Placed;
    ProperIff(k.tree);
    hide NoDup;
    assert k.free != [] ==> k.free[0] in k.free;
  }

  lemma ParentKept(k: Kern, r: Kern, q: Pcb, p: Pcb)
    requires Proper(k.tree) && Proper(r.tree) && p in Children(k.tree, q) && Live(r, p)
    requires forall x :: x in r.pcbs ==> (Live(r, x) <==> x in Post(r.tree))
    requires forall x :: x in Post(r.tree) ==> x in r.pcbs
    requires k.cur != null ==> k.cur in Post(k.tree)
    requires k.free != [] ==> k.free[0] !in Post(k.tree)
    requires || r.tree == k.tree
             || (k.cur != null && k.free != [] && r.tree == Adopt(k.tree, k.cur, k.free[0]))
             || (k.cur != null && r.tree == Prune(k.tree, k.cur))
    ensures Live(r, q) && p in Children(r.tree, q)
  {
    ChildrenInside(k.tree, q);
    var f := k.tree;
    if r.tree == f {
    } else if k.cur != null && k.free != [] && r.tree == Adopt(f, k.cur, k.free[0]) {
      AdoptMembers(f, k.cur, k.free[0]);
      AdoptChildren(f, k.cur, k.free[0], q);
    } else {
      PruneMembers(f, k.cur);
      if q == k.cur || q in Post(KidsOf(f, k.cur)) {
        if q != k.cur {
          FamilyContains(f, k.cur, q, p);
        }
      } else {
        PruneChildren(f, k.cur, q);
      }
    }
  }

  // ------------------------------------------------------------- the boot process

  /** Whoever lives, the first of them is `root` and the others are below it. */
  ghost predicate RootedAt(f: Forest, root: Pcb) {
    f == Nil || (f.p == root && f.older == Nil)
  }

  lemma StepRooted(s: State, x: Input, root: Pcb)
    requires |s.k.dev| == MAXSEMA && RootedAt(s.k.tree, root)
    ensures RootedAt(Step(s, x).k.tree, root)
  {
    TreeSteps(s, x);
    hide Step, Adopt, Prune;
    if s.k.cur != null {
      TopStays(s.k.tree, s.k.cur, root);
    }
  }

  lemma TopStays(f: Forest, c: Pcb, root: Pcb)
    requires RootedAt(f, root)
    ensures RootedAt(Prune(f, c), root) && forall p :: RootedAt(Adopt(f, c, p), root)
  {
    assert Prune(Nil, c) == Nil && forall p :: Adopt(Nil, c, p) == Nil;
  }

  lemma {:induction false} RunRooted(s: State, xs: seq<Input>, t: State, root: Pcb)
    requires Run(s, xs, t) && RootedAt(s.k.tree, root)
    ensures RootedAt(t.k.tree, root)
    decreases |xs|
  {
    hide Step, Enabled, RootedAt;
    if xs != [] {
      StepRooted(s, xs[0], root);
      RunRooted(Step(s, xs[0]), xs[1..], t, root);
    }
  }

  lemma ReachedRooted(table: seq<Pcb>, base: nat, wash: bool, words: map<nat, int>, t0: int, xs: seq<Input>, s: State)
    requires Reached(table, base, wash, words, t0, xs, s)
    ensures RootedAt(s.k.tree, table[0])
  {
    hide Run, CleanRun, Booted;
    BootedTree(table, base, wash, words, t0);
    RunRooted(Booted(table, base, wash, words, t0), xs, s, table[0]);
  }

  lemma BootedTree(table: seq<Pcb>, base: nat, wash: bool, words: map<nat, int>, t0: int)
    requires table != []
    ensures Booted(table, base, wash, words, t0).k.tree == Node(table[0], Nil, Nil)
  {
    KernelFacts.DispatchTree(Initial(table, base, wash, words), t0);
    hide GetNewJob;
  }

  /** In every reachable state the live processes form one tree below the boot
      process: each descends from it, and each but it has exactly one parent,
      which is live. */
  lemma NoOrphans(table: seq<Pcb>, base: nat, wash: bool, words: map<nat, int>, t0: int, xs: seq<Input>, s: State,
    p: Pcb)
    requires Reached(table, base, wash, words, t0, xs, s) && Live(s.k, p)
    ensures Live(s.k, table[0]) && exists n :: Generations(s.k.tree, table[0], p, n)
    ensures p != table[0] ==> exists q :: OnlyParent(s.k, q, p)
  {
    hide Reached;
    ReachedInv(table, base, wash, words, t0, xs, s);
    ReachedRooted(table, base, wash, words, t0, xs, s);
    TreesProper(s.k);
    hide Core;
    var tree := s.k.tree;
    assert tree.Node? && tree.p in Post(tree);
    if p == tree.p {
      assert Generations(tree, tree.p, p, 0);
    } else {
      assert p in Post(tree.kids) && KidsOf(tree, tree.p) == tree.kids;
      var n := MemberDescends(tree, tree.p, p);
      var q := OneLiveParent(s.k, p);
      assert OnlyParent(s.k, q, p);
    }
  }

  ghost predicate OnlyParent(k: Kern, q: Pcb, p: Pcb) {
    && Live(k, q) && p in Children(k.tree, q)
    && forall r :: r in k.pcbs && p in Children(k.tree, r) ==> r == q
  }

  /** When the boot process terminates, or dies of a trap, every process has died
      and the machine halts. */
  lemma RootEnds(table: seq<Pcb>, base: nat, wash: bool, words: map<nat, int>, t0: int, xs: seq<Input>, s: State,
    t: int)
    requires Reached(table, base, wash, words, t0, xs, s) && s.mode == Running && s.k.cur == table[0] && s.clock <= t
    ensures Die(s, t).mode == Halted && forall p :: p in table ==> p in Die(s, t).k.free
  {
    hide Reached;
    ReachedInv(table, base, wash, words, t0, xs, s);
    ReachedRooted(table, base, wash, words, t0, xs, s);
    CurrentLives(s.k);
    assert s.k.tree.p == table[0];
    TopEnds(s, t);
    hide Die, Inv;
  }
}
