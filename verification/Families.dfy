/** The sibling lists in the heap, against the forest they stand for. */
module Families {
  import opened Sequences
  import opened Pcbs
  import opened Nucleus
  import opened Trees

  ghost function Everyone(f: Forest): set<Pcb> { Elements(Post(f)) }

  /** Everyone below the top of `f`. */
  ghost function Inner(f: Forest): (r: set<Pcb>)
    ensures r <= Everyone(f)
  {
    if f.Nil? then {} else Everyone(f.kids) + Inner(f.older)
  }

  /** The children of each member of `f` are linked as `f` says. */
  ghost predicate Wired(f: Forest)
    reads Everyone(f)`child, Inner(f)`prnt, Inner(f)`nextSib, Inner(f)`prevSib
  {
    f.Nil? || (IsFamily(f.p, Names(f.kids)) && Wired(f.kids) && Wired(f.older))
  }

  /** Wired, and nobody above the root. */
  ghost predicate Planted(tree: Forest)
    reads Everyone(tree)`child, Everyone(tree)`prnt, Everyone(tree)`nextSib, Everyone(tree)`prevSib
  {
    Wired(tree) && (tree.Node? ==> tree.p.prnt == null)
  }

  lemma {:induction false} WiredAt(f: Forest, x: Pcb)
    requires Proper(f) && Wired(f) && x in Post(f)
    ensures IsFamily(x, Children(f, x))
  {
    hide IsFamily;
    if x != f.p {
      WiredAt(if x in Post(f.kids) then f.kids else f.older, x);
    }
  }

  lemma {:induction false} WiredBelow(f: Forest, c: Pcb)
    requires Wired(f)
    ensures Wired(KidsOf(f, c))
  {
    hide IsFamily;
    if f.Node? {
      WiredBelow(f.kids, c);
      WiredBelow(f.older, c);
    }
  }

  /** The parent pointer of a process other than the root points at the one
      process that has it among its children. */
  lemma ParentPointer(tree: Forest, c: Pcb)
    requires Proper(tree) && Planted(tree) && c in Post(tree) && (tree.Node? ==> tree.older == Nil)
    ensures c.prnt == null <==> c == tree.p
    ensures c.prnt != null ==> c.prnt in Post(tree) && c in Children(tree, c.prnt)
  {
    if c != tree.p {
      assert Names(tree.older) == [] && Names(tree) == [tree.p];
      var q := HasParent(tree, c);
      WiredAt(tree, q);
    }
  }

  lemma {:induction false} WiredFrom(f: Forest)
    requires Proper(f)
    requires forall x :: x in Post(f) ==> IsFamily(x, Children(f, x))
    ensures Wired(f)
  {
    hide IsFamily;
    if f.Node? {
      assert IsFamily(f.p, Children(f, f.p));
      forall x | x in Post(f.kids)
        ensures IsFamily(x, Children(f.kids, x))
      {
        assert IsFamily(x, Children(f, x));
      }
      forall x | x in Post(f.older)
        ensures IsFamily(x, Children(f.older, x))
      {
        assert IsFamily(x, Children(f, x));
      }
      WiredFrom(f.kids);
      WiredFrom(f.older);
    }
  }

  lemma {:induction false} InnerApart(f: Forest)
    requires Proper(f)
    ensures forall x :: x in Inner(f) ==> x !in Names(f)
  {
    if f.Node? {
      InnerApart(f.older);
    }
  }

  /** The newest child's family shares nobody with the rest. */
  lemma NewestApart(f: Forest)
    requires Proper(f) && f.Node?
    ensures forall x :: x in Post(f) <==> x in Post(f.kids) || x == f.p || x in Post(f.older)
    ensures forall x :: x in Post(f.kids) ==> x !in Post(f.older) && x !in Names(f) && x != f.p
    ensures forall x :: x in Post(f.older) ==> x != f.p
    ensures forall x :: x in Inner(f.older) || x in Inner(f.kids) || x in Names(f.kids) ==> x !in Names(f)
    ensures forall x :: x in Names(f) <==> x == f.p || x in Names(f.older)
  {
    InnerApart(f.older);
  }

  lemma {:induction false} Exists(f: Forest)
    ensures forall x :: x in Post(f) ==> allocated(x)
    ensures forall x :: x in Everyone(f) ==> allocated(x)
  {
    if f.Node? {
      Exists(f.kids);
      Exists(f.older);
    }
  }

  /** The tree is planted once every survivor has lost just the one cut out. */
  lemma Replant(tree: Forest, c: Pcb)
    requires Proper(tree) && c in Post(tree) && tree.Node? && tree.older == Nil
    requires forall x :: x in Post(Prune(tree, c)) ==> IsFamily(x, Without(Children(tree, x), {c}))
    requires c != tree.p ==> tree.p.prnt == null
    ensures Planted(Prune(tree, c))
  {
    hide IsFamily;
    PruneMembers(tree, c);
    forall x | x in Post(Prune(tree, c))
      ensures IsFamily(x, Children(Prune(tree, c), x))
    {
      PruneChildren(tree, c, x);
    }
    WiredFrom(Prune(tree, c));
  }

  /** The children of everyone who keeps all of them when `c` is cut out. */
  ghost function Untouched(tree: Forest, c: Pcb): map<Pcb, seq<Pcb>> {
    map x | x in Everyone(Prune(tree, c)) && c !in Children(tree, x) :: Children(tree, x)
  }

  lemma UntouchedApart(tree: Forest, c: Pcb, q: Pcb)
    requires Proper(tree) && c in Post(tree)
    ensures forall x: Pcb :: x in Untouched(tree, c) ==> x != c && x !in Post(KidsOf(tree, c))
    ensures forall x: Pcb, y: Pcb ::
      x in Untouched(tree, c) && y in Untouched(tree, c)[x] ==> y != c && y !in Post(KidsOf(tree, c))
    ensures c in Children(tree, q) ==> q !in Untouched(tree, c)
    ensures c in Children(tree, q) ==>
      forall x: Pcb, y: Pcb :: x in Untouched(tree, c) && y in Untouched(tree, c)[x] ==> y !in Children(tree, q)
  {
    hide *;
    forall x: Pcb | x in Untouched(tree, c)
      ensures x != c && x !in Post(KidsOf(tree, c))
    {
      UntouchedMember(tree, c, x);
    }
    forall x: Pcb, y: Pcb | x in Untouched(tree, c) && y in Untouched(tree, c)[x]
      ensures y != c && y !in Post(KidsOf(tree, c)) && (c in Children(tree, q) ==> y !in Children(tree, q))
    {
      UntouchedChild(tree, c, q, x, y);
    }
    if c in Children(tree, q) {
      NotUntouched(tree, c, q);
    }
  }

  lemma UntouchedMember(tree: Forest, c: Pcb, x: Pcb)
    requires Proper(tree) && c in Post(tree) && x in Untouched(tree, c)
    ensures x != c && x !in Post(KidsOf(tree, c))
  {
    PruneMembers(tree, c);
    hide Proper, Prune, Post, Children, KidsOf;
  }

  lemma NotUntouched(tree: Forest, c: Pcb, q: Pcb)
    requires c in Children(tree, q)
    ensures q !in Untouched(tree, c)
  {
    hide Children, Prune;
  }

  lemma UntouchedChild(tree: Forest, c: Pcb, q: Pcb, x: Pcb, y: Pcb)
    requires Proper(tree) && c in Post(tree) && x in Untouched(tree, c) && y in Untouched(tree, c)[x]
    ensures y != c && y !in Post(KidsOf(tree, c)) && (c in Children(tree, q) ==> y !in Children(tree, q))
  {
    PruneMembers(tree, c);
    hide Proper, Prune, Post, Children, KidsOf;
    if y in Post(KidsOf(tree, c)) {
      FamilyCloses(tree, c, x, y);
    }
    if c in Children(tree, q) && y in Children(tree, q) {
      OneParent(tree, x, q, y);
    }
  }

  lemma UntouchedWired(tree: Forest, c: Pcb)
    requires Proper(tree) && c in Post(tree) && Wired(tree)
    ensures forall x :: x in Untouched(tree, c) ==> IsFamily(x, Untouched(tree, c)[x])
  {
    hide IsFamily, Wired;
    PruneMembers(tree, c);
    forall x | x in Untouched(tree, c)
      ensures IsFamily(x, Untouched(tree, c)[x])
    {
      WiredAt(tree, x);
    }
  }

  /** `Replant`, from what a kill leaves: the untouched families, and the family
      of the parent of `c`, if it had one, without it. */
  lemma ReplantAfter(tree: Forest, c: Pcb, above: Pcb?)
    requires Proper(tree) && c in Post(tree) && tree.older == Nil
    requires above == null <==> c == tree.p
    requires above != null ==> c in Children(tree, above) && IsFamily(above, Without(Children(tree, above), {c}))
    requires forall x :: x in Untouched(tree, c) ==> IsFamily(x, Untouched(tree, c)[x])
    requires c != tree.p ==> tree.p.prnt == null
    ensures Planted(Prune(tree, c))
  {
    hide IsFamily;
    PruneMembers(tree, c);
    forall x | x in Post(Prune(tree, c))
      ensures IsFamily(x, Without(Children(tree, x), {c}))
    {
      if c in Children(tree, x) {
        ChildrenInside(tree, x);
        OneParent(tree, x, above, c);
      } else {
        assert x in Untouched(tree, c);
        WithoutNothing(Children(tree, x), {c});
      }
    }
    Replant(tree, c);
  }

  /** The tree is planted once `c` has got its new child `p`. */
  lemma Graft(tree: Forest, c: Pcb, p: Pcb)
    requires Proper(tree) && c in Post(tree) && p !in Post(tree) && tree.older == Nil
    requires forall x :: x in Others(tree, c) ==> IsFamily(x, Others(tree, c)[x])
    requires IsFamily(c, [p] + Children(tree, c)) && IsFamily(p, [])
    requires tree.p.prnt == null
    ensures Planted(Adopt(tree, c, p))
  {
    hide IsFamily;
    AdoptMembers(tree, c, p);
    forall x | x in Post(Adopt(tree, c, p))
      ensures IsFamily(x, Children(Adopt(tree, c, p), x))
    {
      AdoptChildren(tree, c, p, x);
      if x != c && x != p {
        assert x in Others(tree, c);
      }
    }
    WiredFrom(Adopt(tree, c, p));
  }

  /** The children of everyone but `c`. */
  ghost function Others(tree: Forest, c: Pcb): map<Pcb, seq<Pcb>> {
    map x | x in Everyone(tree) && x != c :: Children(tree, x)
  }

  lemma OthersApart(tree: Forest, c: Pcb)
    requires Proper(tree) && Wired(tree) && c in Post(tree)
    ensures forall x :: x in Others(tree, c) ==> x in Post(tree) && x != c && IsFamily(x, Others(tree, c)[x])
    ensures forall x, y ::
      x in Others(tree, c) && y in Others(tree, c)[x] ==> y in Post(tree) && y !in Children(tree, c)
    ensures IsFamily(c, Children(tree, c)) &&
      forall y :: y in Children(tree, c) ==> y in Post(tree) && y !in Names(tree)
  {
    hide IsFamily, Wired;
    WiredAt(tree, c);
    ChildrenInside(tree, c);
    forall x | x in Others(tree, c)
      ensures IsFamily(x, Others(tree, c)[x])
    {
      WiredAt(tree, x);
    }
    forall x, y | x in Others(tree, c) && y in Others(tree, c)[x]
      ensures y in Post(tree) && y !in Children(tree, c)
    {
      ChildrenInside(tree, x);
      if y in Children(tree, c) {
        OneParent(tree, x, c, y);
      }
    }
  }
}
