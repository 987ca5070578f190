/** Facts about the process tree: adding a child and cutting a subtree out. */
module Trees {
  import opened Sequences
  import opened Pcbs
  import opened Nucleus

  /** No process occurs twice among the nodes of `f`. */
  ghost predicate Proper(f: Forest) {
    f.Nil? ||
    (&& Proper(f.kids) && Proper(f.older)
     && f.p !in Post(f.kids) && f.p !in Post(f.older)
     && forall x :: x in Post(f.kids) ==> x !in Post(f.older))
  }

  lemma {:induction false} ProperIff(f: Forest)
    ensures Proper(f) <==> NoDup(Post(f))
  {
    if f.Node? {
      ProperIff(f.kids);
      ProperIff(f.older);
      var l, r := Post(f.kids) + [f.p], Post(f.older);
      if NoDup(Post(f)) {
        NoDupSplit(l, r);
        NoDupSplit(Post(f.kids), [f.p]);
        Apart(l, r);
        Apart(Post(f.kids), [f.p]);
      }
      if Proper(f) {
        AppendNoDup(Post(f.kids), f.p);
        JoinNoDup(l, r);
      }
    }
  }

  lemma Apart<T>(s: seq<T>, t: seq<T>)
    requires Disjoint(s, t)
    ensures forall x :: x in s ==> x !in t
  {
  }

  lemma {:induction false} AdoptElsewhere(f: Forest, c: Pcb, p: Pcb)
    requires c !in Post(f)
    ensures Adopt(f, c, p) == f
  {
    if f.Node? {
      AdoptElsewhere(f.kids, c, p);
      AdoptElsewhere(f.older, c, p);
    }
  }

  /** The new child is the only change to who is in the tree. */
  lemma {:induction false} AdoptMembers(f: Forest, c: Pcb, p: Pcb)
    requires Proper(f) && c in Post(f) && p !in Post(f)
    ensures Proper(Adopt(f, c, p))
    ensures forall x :: x in Post(Adopt(f, c, p)) ==> x in Post(f) || x == p
    ensures p in Post(Adopt(f, c, p)) && forall x :: x in Post(f) ==> x in Post(Adopt(f, c, p))
    ensures var r := Adopt(f, c, p); r.Node? && r.p == f.p && (f.older == Nil ==> r.older == Nil)
  {
    if f.p == c {
      var g := Node(p, Nil, f.kids);
      assert Post(Nil) == [] && Post(g) == [p] + Post(f.kids);
    } else if c in Post(f.kids) {
      AdoptMembers(f.kids, c, p);
      AdoptElsewhere(f.older, c, p);
      var g := Adopt(f.kids, c, p);
      assert Adopt(f, c, p) == Node(f.p, g, f.older);
      assert p !in Post(f.older) && p != f.p;
    } else {
      AdoptMembers(f.older, c, p);
      AdoptElsewhere(f.kids, c, p);
      assert Adopt(f, c, p) == Node(f.p, f.kids, Adopt(f.older, c, p));
    }
  }

  lemma {:induction false} PruneElsewhere(f: Forest, c: Pcb)
    requires c !in Post(f)
    ensures Prune(f, c) == f
  {
    if f.Node? {
      PruneElsewhere(f.kids, c);
      PruneElsewhere(f.older, c);
    }
  }

  /** Cutting `c` out takes away `c` and everything below it, and nothing else. */
  lemma {:induction false} PruneMembers(f: Forest, c: Pcb)
    requires Proper(f) && c in Post(f)
    ensures Proper(Prune(f, c)) && Proper(KidsOf(f, c)) && c !in Post(KidsOf(f, c))
    ensures forall x :: x in Post(Prune(f, c)) ==> x in Post(f)
    ensures forall x :: x in Post(f) ==> (x in Post(Prune(f, c)) <==> x != c && x !in Post(KidsOf(f, c)))
    ensures forall x :: x in Post(KidsOf(f, c)) ==> x in Post(f)
  {
    if f.p == c {
    } else if c in Post(f.kids) {
      PruneMembers(f.kids, c);
      PruneElsewhere(f.older, c);
      var g := Prune(f.kids, c);
      assert Prune(f, c) == Node(f.p, g, f.older);
    } else {
      PruneMembers(f.older, c);
      PruneElsewhere(f.kids, c);
      assert Prune(f, c) == Node(f.p, f.kids, Prune(f.older, c));
    }
  }

  // -------------------------------------------------- parents and children

  /** The children of `x` in `f`, newest first. */
  ghost function Children(f: Forest, x: Pcb): seq<Pcb> { Names(KidsOf(f, x)) }

  lemma {:induction false} ChildrenInside(f: Forest, x: Pcb)
    requires Proper(f)
    ensures forall p :: p in Children(f, x) ==> x in Post(f) && p in Post(f) && p != x && p !in Names(f)
    ensures x !in Post(f) ==> KidsOf(f, x) == Nil
  {
    if f.Node? {
      ChildrenInside(f.kids, x);
      ChildrenInside(f.older, x);
    }
  }

  /** No orphans: whoever is not at the top has a parent in the forest. */
  lemma {:induction false} HasParent(f: Forest, p: Pcb) returns (q: Pcb)
    requires Proper(f) && p in Post(f) && p !in Names(f)
    ensures q in Post(f) && p in Children(f, q)
  {
    if p in Names(f.kids) {
      q := f.p;
    } else if p in Post(f.kids) {
      q := HasParent(f.kids, p);
    } else {
      q := HasParent(f.older, p);
    }
  }

  /** Nobody has two parents. */
  lemma {:induction false} OneParent(f: Forest, x: Pcb, y: Pcb, p: Pcb)
    requires Proper(f) && p in Children(f, x) && p in Children(f, y)
    ensures x == y
  {
    ChildrenInside(f, x);
    ChildrenInside(f, y);
    ChildrenInside(f.kids, x);
    ChildrenInside(f.kids, y);
    ChildrenInside(f.older, x);
    ChildrenInside(f.older, y);
    if x != f.p && y != f.p {
      if p in Post(f.kids) {
        OneParent(f.kids, x, y, p);
      } else {
        OneParent(f.older, x, y, p);
      }
    }
  }

  lemma {:induction false} PruneNames(f: Forest, c: Pcb)
    requires Proper(f)
    ensures Names(Prune(f, c)) == Without(Names(f), {c})
  {
    if f.Node? {
      PruneNames(f.older, c);
      assert Names(f)[1..] == Names(f.older);
      if f.p == c {
        WithoutNothing(Names(f.older), {c});
      }
    }
  }

  /** Cutting `c` out takes it from its parent's children, in their order, and
      leaves the children of every other survivor alone. */
  lemma {:induction false} PruneChildren(f: Forest, c: Pcb, x: Pcb)
    requires Proper(f) && c in Post(f) && x in Post(Prune(f, c))
    ensures Children(Prune(f, c), x) == Without(Children(f, x), {c})
  {
    PruneMembers(f, c);
    if f.p == c {
      ChildrenInside(f.older, x);
      WithoutNothing(Children(f.older, x), {c});
    } else {
      PruneNames(f.kids, c);
      PruneElsewhere(if c in Post(f.kids) then f.older else f.kids, c);
      if x != f.p {
        if c in Post(f.kids) {
          PruneMembers(f.kids, c);
          if x in Post(Prune(f.kids, c)) {
            PruneChildren(f.kids, c, x);
          } else {
            ChildrenInside(f.older, x);
            WithoutNothing(Children(f.older, x), {c});
          }
        } else if x in Post(f.kids) {
          ChildrenInside(f.kids, x);
          WithoutNothing(Children(f.kids, x), {c});
        } else {
          PruneChildren(f.older, c, x);
        }
      }
    }
  }

  lemma {:induction false} AdoptNames(f: Forest, c: Pcb, p: Pcb)
    ensures Names(Adopt(f, c, p)) == Names(f)
  {
    if f.Node? {
      AdoptNames(f.older, c, p);
    }
  }

  lemma {:induction false} AdoptKids(f: Forest, c: Pcb, p: Pcb)
    requires Proper(f) && c in Post(f) && p !in Post(f)
    ensures KidsOf(Adopt(f, c, p), c) == Node(p, Nil, KidsOf(f, c))
  {
    if f.p != c {
      if c in Post(f.kids) {
        AdoptKids(f.kids, c, p);
        AdoptMembers(f.kids, c, p);
      } else {
        AdoptElsewhere(f.kids, c, p);
        AdoptKids(f.older, c, p);
      }
    }
  }

  /** The new child comes first among its parent's, and changes no other family. */
  lemma {:induction false} AdoptChildren(f: Forest, c: Pcb, p: Pcb, x: Pcb)
    requires Proper(f) && c in Post(f) && p !in Post(f) && x in Post(Adopt(f, c, p))
    ensures Children(Adopt(f, c, p), x) ==
      if x == c then [p] + Children(f, c) else if x == p then [] else Children(f, x)
  {
    AdoptMembers(f, c, p);
    if f.p == c {
      var g := Node(p, Nil, f.kids);
      assert Post(Nil) == [] && Post(g) == [p] + Post(f.kids) && Names(g) == [p] + Names(f.kids);
      assert Adopt(f, c, p) == Node(c, g, f.older);
      if x == c {
      } else if x == p {
        assert KidsOf(g, p) == Nil;
      } else if x in Post(g) {
        assert KidsOf(g, x) == KidsOf(f.kids, x);
      } else {
        assert KidsOf(Adopt(f, c, p), x) == KidsOf(f.older, x) == KidsOf(f, x);
      }
    } else {
      AdoptNames(f.kids, c, p);
      AdoptElsewhere(if c in Post(f.kids) then f.older else f.kids, c, p);
      if x != f.p {
        if c in Post(f.kids) {
          AdoptMembers(f.kids, c, p);
          if x in Post(Adopt(f.kids, c, p)) {
            AdoptChildren(f.kids, c, p, x);
          }
        } else if x !in Post(f.kids) {
          AdoptChildren(f.older, c, p, x);
        }
      }
    }
  }

  lemma {:induction false} BelowTop(f: Forest, c: Pcb)
    requires Proper(f)
    ensures forall p :: p in Post(KidsOf(f, c)) ==> p in Post(f) && p !in Names(f)
  {
    if f.Node? {
      BelowTop(f.kids, c);
      BelowTop(f.older, c);
    }
  }

  /** The children of a survivor are survivors, but for the one cut out. */
  lemma {:induction false} FamilyCloses(f: Forest, c: Pcb, x: Pcb, p: Pcb)
    requires Proper(f) && c in Post(f) && p in Children(f, x) && p in Post(KidsOf(f, c))
    ensures x == c || x in Post(KidsOf(f, c))
  {
    ChildrenInside(f, x);
    ChildrenInside(f.kids, x);
    ChildrenInside(f.older, x);
    BelowTop(f.kids, c);
    BelowTop(f.older, c);
    if f.p != c && f.p != x {
      if c in Post(f.kids) {
        FamilyCloses(f.kids, c, x, p);
      } else {
        FamilyCloses(f.older, c, x, p);
      }
    }
  }

  /** And the children of a member of the family belong to it. */
  lemma {:induction false} FamilyContains(f: Forest, c: Pcb, x: Pcb, p: Pcb)
    requires Proper(f) && x in Post(KidsOf(f, c)) && p in Children(f, x)
    ensures p in Post(KidsOf(f, c))
  {
    ChildrenInside(f, c);
    BelowTop(f, c);
    BelowTop(f.kids, c);
    BelowTop(f.older, c);
    if f.p == c {
      ChildrenInside(f.kids, x);
    } else if c in Post(f.kids) {
      FamilyContains(f.kids, c, x, p);
    } else {
      FamilyContains(f.older, c, x, p);
    }
  }

  /** Nobody is above a member of its own family. */
  lemma NotAboveItself(f: Forest, c: Pcb, q: Pcb)
    requires Proper(f) && c in Children(f, q)
    ensures q != c && q !in Post(KidsOf(f, c))
    ensures forall y :: y in Children(f, q) ==> y !in Post(KidsOf(f, c))
  {
    ChildrenInside(f, q);
    PruneMembers(f, c);
    if q in Post(KidsOf(f, c)) {
      FamilyContains(f, c, q, c);
    }
    forall y | y in Children(f, q)
      ensures y !in Post(KidsOf(f, c))
    {
      if y in Post(KidsOf(f, c)) {
        FamilyCloses(f, c, q, y);
      }
    }
  }
}
