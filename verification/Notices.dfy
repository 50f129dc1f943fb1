/** The notice registry: lifecycle checks and the successor chains that an accepted registry guarantees. */
module Notices {
  import opened Common

  datatype Lifecycle = Active | Superseded | Withdrawn

  datatype Notice = Notice(
    id: Name,
    status: Lifecycle,
    state: Lifecycle,
    supersededBy: Option<Name>,
    withdrawnReason: Option<Name>,
    systems: set<Name>,
    products: set<Name>)

  type Registry = map<Name, Notice>

  /** The lifecycle part of the checks on one notice. */
  predicate LifecycleOk(n: Notice) {
    && n.state == n.status
    && match n.state {
         case Active => n.supersededBy.None? && n.withdrawnReason.None?
         case Withdrawn => n.withdrawnReason.Some? && n.supersededBy.None?
         case Superseded => n.supersededBy.Some? && n.withdrawnReason.None? && n.supersededBy.value != n.id
       }
  }

  /** A lifecycle is sound exactly when a successor marks superseded notices and a reason withdrawn ones, no others. */
  lemma LifecycleExactly(n: Notice)
    ensures LifecycleOk(n) <==>
      && n.state == n.status
      && (n.supersededBy.Some? <==> n.state == Superseded)
      && (n.withdrawnReason.Some? <==> n.state == Withdrawn)
      && n.supersededBy != Some(n.id)
  {
  }

  // ---------------------------------------------------------------- chains

  /** Following successors from id meets, after exactly n steps, a notice that has none. */
  ghost predicate EndsAfter(r: Registry, id: Name, n: nat)
    decreases n
  {
    && id in r
    && if n == 0 then r[id].supersededBy.None?
       else r[id].supersededBy.Some? && EndsAfter(r, r[id].supersededBy.value, n - 1)
  }

  ghost predicate Ends(r: Registry, id: Name) {
    exists n: nat :: EndsAfter(r, id, n)
  }

  /** The notice that the chain ends with. */
  ghost function LastOf(r: Registry, id: Name, n: nat): (last: Name)
    requires EndsAfter(r, id, n)
    ensures last in r && r[last].supersededBy.None?
    decreases n
  {
    if n == 0 then id else LastOf(r, r[id].supersededBy.value, n - 1)
  }

  /** Every member has its successor in the set too. */
  ghost predicate Closed(r: Registry, ids: set<Name>) {
    forall x :: x in ids ==> x in r && r[x].supersededBy.Some? && r[x].supersededBy.value in ids
  }

  lemma {:induction false} ClosedNeverEnds(r: Registry, ids: set<Name>, id: Name, n: nat)
    requires Closed(r, ids) && id in ids
    ensures !EndsAfter(r, id, n)
    decreases n
  {
    if n > 0 {
      ClosedNeverEnds(r, ids, r[id].supersededBy.value, n - 1);
    }
  }

  lemma StepEnds(r: Registry, id: Name)
    requires id in r && r[id].supersededBy.Some?
    ensures Ends(r, id) <==> Ends(r, r[id].supersededBy.value)
  {
    var next := r[id].supersededBy.value;
    if Ends(r, id) {
      var n: nat :| EndsAfter(r, id, n);
      assert EndsAfter(r, next, n - 1);
    }
    if Ends(r, next) {
      var n: nat :| EndsAfter(r, next, n);
      assert EndsAfter(r, id, n + 1);
    }
  }

  /** Walks the successors with a growing set of seen ids, which the finite registry bounds. */
  method WalkSuccessors(r: Registry, start: Name) returns (ok: bool)
    requires start in r && r[start].supersededBy.Some?
    ensures ok == Ends(r, start)
  {
    var seen := {start};
    var successor := r[start].supersededBy;
    StepEnds(r, start);
    while successor.Some?
      invariant seen <= r.Keys && start in seen
      invariant successor.Some? ==> Ends(r, start) == Ends(r, successor.value)
      invariant successor.None? ==> Ends(r, start)
      invariant forall x :: x in seen ==> r[x].supersededBy.Some? || successor.None?
      invariant successor.Some? ==>
        forall x :: x in seen ==> r[x].supersededBy.value in seen || r[x].supersededBy == successor
      decreases |r.Keys - seen|, successor.Some?
    {
      var id := successor.value;
      if id in seen {
        assert Closed(r, seen);
        forall n: nat ensures !EndsAfter(r, start, n) {
          ClosedNeverEnds(r, seen, start, n);
        }
        return false;
      }
      if id !in r {
        return false;
      }
      assert r.Keys - (seen + {id}) < r.Keys - seen;
      SmallerSet(r.Keys - (seen + {id}), r.Keys - seen);
      if r[id].supersededBy.Some? {
        StepEnds(r, id);
      } else {
        assert EndsAfter(r, id, 0);
      }
      seen := seen + {id};
      successor := r[id].supersededBy;
    }
    return true;
  }

  lemma {:induction false} SmallerSet(s: set<Name>, t: set<Name>)
    requires s < t
    ensures |s| < |t|
  {
    var x :| x in t && x !in s;
    if s != {} {
      var y :| y in s;
      SmallerSet(s - {y}, t - {y});
    }
  }

  // ---------------------------------------------------------------- the registry

  /** A superseded notice names a stored successor that is not withdrawn and shares a system and a product. */
  ghost predicate SuccessorOk(r: Registry, n: Notice) {
    n.supersededBy.Some? ==>
      && n.supersededBy.value in r
      && var next := r[n.supersededBy.value];
         && next.state != Withdrawn
         && n.systems * next.systems != {}
         && n.products * next.products != {}
  }

  ghost predicate DistinctIds(notices: seq<Notice>) {
    forall i, j :: 0 <= i < j < |notices| ==> notices[i].id != notices[j].id
  }

  ghost predicate IsIndex(notices: seq<Notice>, r: Registry) {
    && (forall n :: n in notices ==> n.id in r && r[n.id] == n)
    && (forall id :: id in r ==> r[id] in notices && r[id].id == id)
  }

  /** What acceptance means: local checks, and every chain comes to an end. */
  ghost predicate Acceptable(notices: seq<Notice>, r: Registry) {
    && notices != []
    && (forall n :: n in notices ==> LifecycleOk(n))
    && DistinctIds(notices)
    && IsIndex(notices, r)
    && forall n :: n in notices ==> SuccessorOk(r, n) && Ends(r, n.id)
  }

  method Index(notices: seq<Notice>) returns (r: Registry)
    requires DistinctIds(notices)
    ensures IsIndex(notices, r)
  {
    r := map[];
    for i := 0 to |notices|
      invariant forall k :: 0 <= k < i ==> notices[k].id in r && r[notices[k].id] == notices[k]
      invariant forall id :: id in r ==> r[id] in notices[..i] && r[id].id == id
    {
      r := r[notices[i].id := notices[i]];
    }
  }

  method IdsDistinct(notices: seq<Notice>) returns (ok: bool)
    ensures ok == DistinctIds(notices)
  {
    var ids: set<Name> := {};
    for i := 0 to |notices|
      invariant forall x :: x in ids <==> exists k :: 0 <= k < i && notices[k].id == x
      invariant forall a, b :: 0 <= a < b < i ==> notices[a].id != notices[b].id
    {
      if notices[i].id in ids {
        return false;
      }
      ids := ids + {notices[i].id};
    }
    return true;
  }

  /** Accepts exactly the acceptable registries. */
  method ValidateRegistry(notices: seq<Notice>) returns (ok: bool)
    ensures ok <==> exists r :: Acceptable(notices, r)
  {
    if notices == [] {
      return false;
    }
    for i := 0 to |notices|
      invariant forall k :: 0 <= k < i ==> LifecycleOk(notices[k])
    {
      if !LifecycleOk(notices[i]) {
        assert notices[i] in notices;
        return false;
      }
    }
    var distinct := IdsDistinct(notices);
    if !distinct {
      return false;
    }
    var r := Index(notices);
    forall s | Acceptable(notices, s) ensures s == r {
      OneIndex(notices, r, s);
    }
    for i := 0 to |notices|
      invariant forall k :: 0 <= k < i ==> SuccessorOk(r, notices[k]) && Ends(r, notices[k].id)
    {
      var n := notices[i];
      assert n in notices;
      if n.supersededBy.Some? {
        var id := n.supersededBy.value;
        if id !in r || r[id].state == Withdrawn || n.systems * r[id].systems == {}
           || n.products * r[id].products == {}
        {
          assert !SuccessorOk(r, n);
          return false;
        }
        var walked := WalkSuccessors(r, n.id);
        if !walked {
          return false;
        }
      } else {
        assert EndsAfter(r, n.id, 0);
      }
    }
    assert Acceptable(notices, r);
    return true;
  }

  lemma OneIndex(notices: seq<Notice>, r: Registry, s: Registry)
    requires IsIndex(notices, r) && IsIndex(notices, s)
    ensures r == s
  {
  }

  // ---------------------------------------------------------------- what acceptance guarantees

  /** From a superseded notice the chain reaches an active notice in finitely many steps. */
  lemma {:induction false} ReachesActive(notices: seq<Notice>, r: Registry, id: Name, n: nat)
    requires Acceptable(notices, r) && id in r && r[id].state != Withdrawn && EndsAfter(r, id, n)
    ensures r[LastOf(r, id, n)].state == Active
    decreases n
  {
    assert r[id] in notices && LifecycleOk(r[id]) && SuccessorOk(r, r[id]);
    if n > 0 {
      ReachesActive(notices, r, r[id].supersededBy.value, n - 1);
    }
  }

  lemma SupersededReachesActive(notices: seq<Notice>, r: Registry, id: Name) returns (n: nat)
    requires Acceptable(notices, r) && id in r && r[id].state == Superseded
    ensures n > 0 && EndsAfter(r, id, n) && r[LastOf(r, id, n)].state == Active
  {
    assert r[id] in notices && LifecycleOk(r[id]) && Ends(r, r[id].id);
    n :| EndsAfter(r, id, n);
    ReachesActive(notices, r, id, n);
  }

  /** In an accepted registry a notice and its successor share a system and a product, and that one is not withdrawn. */
  lemma SuccessorsShare(notices: seq<Notice>, r: Registry, id: Name)
    requires Acceptable(notices, r) && id in r && r[id].supersededBy.Some?
    ensures r[id].supersededBy.value in r
    ensures
      var next := r[r[id].supersededBy.value];
      && next.state != Withdrawn
      && (exists system :: system in r[id].systems && system in next.systems)
      && (exists product :: product in r[id].products && product in next.products)
  {
    assert r[id] in notices && SuccessorOk(r, r[id]);
    var next := r[r[id].supersededBy.value];
    var system :| system in r[id].systems * next.systems;
    var product :| product in r[id].products * next.products;
  }

  /** A successor path in an accepted registry never returns to a notice it has visited. */
  lemma SuccessorsAreAcyclic(notices: seq<Notice>, r: Registry, path: seq<Name>)
    requires Acceptable(notices, r) && |path| > 1 && path[0] in r
    requires forall i :: 0 <= i < |path| - 1 ==> path[i] in r && r[path[i]].supersededBy == Some(path[i + 1])
    ensures path[0] != path[|path| - 1]
  {
    if path[0] == path[|path| - 1] {
      var ids := set i | 0 <= i < |path| - 1 :: path[i];
      forall x | x in ids ensures x in r && r[x].supersededBy.Some? && r[x].supersededBy.value in ids {
        var i :| 0 <= i < |path| - 1 && path[i] == x;
        if i + 1 == |path| - 1 {
          assert path[0] in ids;
        } else {
          assert path[i + 1] in ids;
        }
      }
      assert path[0] in ids && r[path[0]] in notices && Ends(r, r[path[0]].id);
      var n: nat :| EndsAfter(r, path[0], n);
      ClosedNeverEnds(r, ids, path[0], n);
    }
  }
}
