/** The attempts table as a forest: ancestry, subtrees, and how they react to an insert or an update. */
module AttemptForest {
  import opened Common
  import opened BudgetTypes

  /** Every parent is stored and a child sits one level below it, so every parent walk ends at a root. */
  ghost predicate Forest(t: Table) {
    forall x {:trigger t[x].request.parent} :: x in t ==> Fits(t, x, t[x])
  }

  /** The row's parent, if any, is stored one level above it. */
  ghost predicate Fits(t: Table, x: Id, row: Row) {
    && row.request.id == x
    && match row.request.parent {
         case None => row.depth == 0
         case Some(p) => p in t && row.depth == t[p].depth + 1
       }
  }

  lemma ParentStored(t: Table, x: Id)
    requires Forest(t) && x in t
    ensures t[x].request.parent.Some? ==> t[x].request.parent.value in t
  {
  }

  /** The parent walk from x meets a. */
  ghost predicate Descends(t: Table, x: Id, a: Id)
    requires Forest(t) && x in t
    decreases t[x].depth
  {
    x == a || (t[x].request.parent.Some? && Descends(t, t[x].request.parent.value, a))
  }

  ghost function Subtree(t: Table, a: Id): (s: set<Id>)
    requires Forest(t)
  {
    set x | x in t && Descends(t, x, a)
  }

  ghost function Children(t: Table, p: Id): set<Id> {
    set x | x in t && t[x].request.parent == Some(p)
  }

  lemma {:induction false} DescendsFacts(t: Table, x: Id, a: Id)
    requires Forest(t) && x in t && Descends(t, x, a)
    ensures a in t && t[a].depth <= t[x].depth
    ensures t[a].depth == t[x].depth ==> a == x
    decreases t[x].depth
  {
    if x != a {
      DescendsFacts(t, t[x].request.parent.value, a);
    }
  }

  lemma {:induction false} DescendsTransitive(t: Table, x: Id, y: Id, z: Id)
    requires Forest(t) && x in t && y in t && Descends(t, x, y) && Descends(t, y, z)
    ensures Descends(t, x, z)
    decreases t[x].depth
  {
    if x != y {
      DescendsTransitive(t, t[x].request.parent.value, y, z);
    }
  }

  // ---------------------------------------------------------------- updates

  /** The tables hold the same attempts, each with the request, limits and depth it was admitted with. */
  ghost predicate SameSkeleton(t: Table, u: Table) {
    && t.Keys == u.Keys
    && forall x :: x in t ==>
         t[x].request == u[x].request && t[x].limits == u[x].limits && t[x].depth == u[x].depth
  }

  lemma SkeletonKeepsForest(t: Table, u: Table)
    requires Forest(t) && SameSkeleton(t, u)
    ensures Forest(u)
    ensures forall p :: Children(u, p) == Children(t, p)
  {
    forall x | x in u ensures Fits(u, x, u[x]) {
      assert Fits(t, x, t[x]);
    }
    forall p ensures Children(u, p) == Children(t, p) {
    }
  }

  lemma {:induction false} SkeletonKeepsDescends(t: Table, u: Table, x: Id, a: Id)
    requires Forest(t) && Forest(u) && SameSkeleton(t, u) && x in t
    ensures Descends(u, x, a) == Descends(t, x, a)
    decreases t[x].depth
  {
    if t[x].request.parent.Some? {
      SkeletonKeepsDescends(t, u, t[x].request.parent.value, a);
    }
  }

  lemma SkeletonKeepsSubtree(t: Table, u: Table, a: Id)
    requires Forest(t) && Forest(u) && SameSkeleton(t, u)
    ensures Subtree(u, a) == Subtree(t, a)
  {
    forall x | x in t ensures Descends(u, x, a) == Descends(t, x, a) {
      SkeletonKeepsDescends(t, u, x, a);
    }
  }

  // ---------------------------------------------------------------- inserts

  /** u is t with one new leaf. */
  ghost predicate Inserts(t: Table, u: Table, x: Id) {
    && Forest(t)
    && x !in t
    && u.Keys == t.Keys + {x}
    && (forall y :: y in t ==> u[y] == t[y])
    && Forest(u)
  }

  lemma InsertLeaf(t: Table, x: Id, row: Row)
    requires Forest(t) && x !in t && Fits(t, x, row)
    ensures Inserts(t, t[x := row], x)
  {
    var u := t[x := row];
    forall y | y in u ensures Fits(u, y, u[y]) {
      if y != x {
        assert Fits(t, y, t[y]);
      }
    }
  }

  lemma {:induction false} InsertKeepsDescends(t: Table, u: Table, x: Id, y: Id, a: Id)
    requires Inserts(t, u, x) && y in t
    ensures Descends(u, y, a) == Descends(t, y, a)
    ensures !Descends(u, y, x)
    decreases t[y].depth
  {
    if t[y].request.parent.Some? {
      InsertKeepsDescends(t, u, x, t[y].request.parent.value, a);
    }
  }

  /** Only the new leaf and the subtrees of its ancestors change. */
  lemma InsertedSubtree(t: Table, u: Table, x: Id, a: Id)
    requires Inserts(t, u, x) && a in u
    ensures a == x ==> Subtree(u, a) == {x}
    ensures a != x && Descends(u, x, a) ==> Subtree(u, a) == Subtree(t, a) + {x}
    ensures a != x && !Descends(u, x, a) ==> Subtree(u, a) == Subtree(t, a)
  {
    forall y | y in t
      ensures Descends(u, y, a) == Descends(t, y, a)
      ensures !Descends(u, y, x)
    {
      InsertKeepsDescends(t, u, x, y, a);
    }
  }

  lemma InsertedChildren(t: Table, u: Table, x: Id, p: Id)
    requires Inserts(t, u, x)
    ensures u[x].request.parent == Some(p) ==> Children(u, p) == Children(t, p) + {x}
    ensures u[x].request.parent != Some(p) ==> Children(u, p) == Children(t, p)
    ensures Children(u, x) == {}
  {
    assert forall y :: y in t ==> t[y].request.parent != Some(x);
  }
}
