/** The loops of the ledger over the attempts table, each against the definition it computes. */
module LedgerLoops {
  import opened Common
  import opened BudgetTypes
  import opened AttemptForest
  import opened Sums
  import opened LedgerSpec

  method DescendsFrom(t: Table, x: Id, ancestor: Id) returns (found: bool)
    requires Forest(t) && x in t
    ensures found == Descends(t, x, ancestor)
  {
    var current := Some(x);
    while current.Some?
      invariant current.Some? ==> current.value in t
      invariant (current.Some? && Descends(t, current.value, ancestor)) == Descends(t, x, ancestor)
      decreases if current.Some? then t[current.value].depth + 1 else 0
    {
      if current.value == ancestor {
        return true;
      }
      current := t[current.value].request.parent;
    }
    return false;
  }

  method SubtreeRows(t: Table, ancestor: Id) returns (rows: set<Id>)
    requires Forest(t)
    ensures rows == Subtree(t, ancestor)
  {
    rows := {};
    var pending := t.Keys;
    while pending != {}
      invariant pending <= t.Keys
      invariant rows == Subtree(t, ancestor) - pending
      decreases |pending|
    {
      var x :| x in pending;
      var below := DescendsFrom(t, x, ancestor);
      if below {
        rows := rows + {x};
      }
      pending := pending - {x};
    }
  }

  /** The five sums in one pass over the rows. */
  method ChargedSnapshot(t: Table, rows: set<Id>) returns (s: Snapshot)
    requires rows <= t.Keys
    ensures s.attempts == Sum(Charged(Attempts), t, rows)
    ensures s.tokens == Sum(Charged(Tokens), t, rows)
    ensures s.cost == Sum(Charged(Cost), t, rows)
    ensures s.bytes == Sum(Charged(Bytes), t, rows)
    ensures s.active == Sum(Charged(Active), t, rows)
    ensures !s.overBudget
  {
    s := Snapshot(0, 0, 0, 0, 0, false);
    var pending := rows;
    while pending != {}
      invariant pending <= rows
      invariant s.attempts + Sum(Charged(Attempts), t, pending) == Sum(Charged(Attempts), t, rows)
      invariant s.tokens + Sum(Charged(Tokens), t, pending) == Sum(Charged(Tokens), t, rows)
      invariant s.cost + Sum(Charged(Cost), t, pending) == Sum(Charged(Cost), t, rows)
      invariant s.bytes + Sum(Charged(Bytes), t, pending) == Sum(Charged(Bytes), t, rows)
      invariant s.active + Sum(Charged(Active), t, pending) == Sum(Charged(Active), t, rows)
      invariant !s.overBudget
      decreases |pending|
    {
      var x :| x in pending;
      SumRemove(Charged(Attempts), t, pending, x);
      SumRemove(Charged(Tokens), t, pending, x);
      SumRemove(Charged(Cost), t, pending, x);
      SumRemove(Charged(Bytes), t, pending, x);
      SumRemove(Charged(Active), t, pending, x);
      s := Snapshot(
        s.attempts + Charge(Attempts, t[x]),
        s.tokens + Charge(Tokens, t[x]),
        s.cost + Charge(Cost, t[x]),
        s.bytes + Charge(Bytes, t[x]),
        s.active + Charge(Active, t[x]),
        false);
      pending := pending - {x};
    }
  }

  predicate SnapshotWithin(s: Snapshot, limits: Limits) {
    && s.attempts <= limits.maxAttempts
    && s.tokens <= limits.maxTokens
    && s.cost <= limits.maxCost
    && s.bytes <= limits.maxBytes
    && s.active <= limits.maxConcurrency
  }

  method RowsWithin(t: Table, rows: set<Id>, limits: Limits) returns (ok: bool)
    requires rows <= t.Keys
    ensures ok == Within(t, rows, limits)
  {
    var s := ChargedSnapshot(t, rows);
    ok := SnapshotWithin(s, limits);
    WithinByMeter(t, rows, limits);
  }

  lemma WithinByMeter(t: Table, rows: set<Id>, limits: Limits)
    requires rows <= t.Keys
    ensures Within(t, rows, limits) <==>
      && Sum(Charged(Attempts), t, rows) <= limits.maxAttempts
      && Sum(Charged(Tokens), t, rows) <= limits.maxTokens
      && Sum(Charged(Cost), t, rows) <= limits.maxCost
      && Sum(Charged(Bytes), t, rows) <= limits.maxBytes
      && Sum(Charged(Active), t, rows) <= limits.maxConcurrency
  {
    if && Sum(Charged(Attempts), t, rows) <= limits.maxAttempts
       && Sum(Charged(Tokens), t, rows) <= limits.maxTokens
       && Sum(Charged(Cost), t, rows) <= limits.maxCost
       && Sum(Charged(Bytes), t, rows) <= limits.maxBytes
       && Sum(Charged(Active), t, rows) <= limits.maxConcurrency
    {
      forall m: Meter ensures Sum(Charged(m), t, rows) <= Cap(m, limits) {
        match m {
          case Attempts =>
          case Tokens =>
          case Cost =>
          case Bytes =>
          case Active =>
        }
      }
    }
  }

  /** The list of all ancestors, unless the walk meets a released one. */
  method Ancestors(t: Table, parent: Id) returns (found: Option<seq<Id>>)
    requires Forest(t) && parent in t
    ensures found.None? <==> ReleasedAbove(t, Some(parent))
    ensures found.Some? ==> forall a :: a in found.value <==> a in t && Above(t, Some(parent), a)
  {
    var ancestors := [];
    var current := Some(parent);
    while current.Some?
      invariant current.Some? ==> current.value in t && Descends(t, parent, current.value)
      invariant forall a :: a in ancestors ==> a in t && !t[a].state.Released?
      invariant forall a :: a in t ==>
        (Descends(t, parent, a) <==> a in ancestors || (current.Some? && Descends(t, current.value, a)))
      decreases if current.Some? then t[current.value].depth + 1 else 0
    {
      var x := current.value;
      if t[x].state.Released? {
        assert Above(t, Some(parent), x);
        return None;
      }
      ancestors := ancestors + [x];
      current := t[x].request.parent;
      if current.Some? {
        assert Descends(t, x, current.value) by {
          assert Descends(t, current.value, current.value);
        }
        DescendsTransitive(t, parent, x, current.value);
      }
    }
    return Some(ancestors);
  }

  method AnyTooDeep(t: Table, ancestors: seq<Id>, depth: nat) returns (found: bool)
    requires forall a :: a in ancestors ==> a in t
    ensures found <==> exists a :: a in ancestors && depth - t[a].depth > t[a].limits.maxDepth
  {
    for i := 0 to |ancestors|
      invariant forall j :: 0 <= j < i ==> depth - t[ancestors[j]].depth <= t[ancestors[j]].limits.maxDepth
    {
      if depth - t[ancestors[i]].depth > t[ancestors[i]].limits.maxDepth {
        return true;
      }
    }
    return false;
  }

  method AnyLate(t: Table, ancestors: seq<Id>, elapsed: int) returns (found: bool)
    requires forall a :: a in ancestors ==> a in t
    ensures found <==> exists a :: a in ancestors && elapsed > t[a].limits.maxElapsed
  {
    for i := 0 to |ancestors|
      invariant forall j :: 0 <= j < i ==> elapsed <= t[ancestors[j]].limits.maxElapsed
    {
      if elapsed > t[ancestors[i]].limits.maxElapsed {
        return true;
      }
    }
    return false;
  }

  method AnyOverdrawn(t: Table, ancestors: seq<Id>) returns (found: bool)
    requires Forest(t) && forall a :: a in ancestors ==> a in t
    ensures found <==> exists a :: a in ancestors && !Within(t, Subtree(t, a), t[a].limits)
  {
    for i := 0 to |ancestors|
      invariant forall j :: 0 <= j < i ==> Within(t, Subtree(t, ancestors[j]), t[ancestors[j]].limits)
    {
      var rows := SubtreeRows(t, ancestors[i]);
      var ok := RowsWithin(t, rows, t[ancestors[i]].limits);
      if !ok {
        return true;
      }
    }
    return false;
  }

  /** The walk from an attempt to its root that a dispatch makes. */
  method DispatchWalk(t: Table, x: Id, elapsed: int) returns (why: Option<Denial>)
    requires Forest(t) && x in t
    ensures why == WalkDenial(t, x, elapsed)
  {
    var current := Some(x);
    while current.Some?
      invariant current.Some? ==> current.value in t
      invariant WalkDenial(t, x, elapsed) == if current.Some? then WalkDenial(t, current.value, elapsed) else None
      decreases if current.Some? then t[current.value].depth + 1 else 0
    {
      var row := t[current.value];
      if row.state.Released? {
        return Some(AncestorUnavailable);
      }
      if elapsed > row.limits.maxElapsed {
        return Some(SubtreeDeadlineExpired);
      }
      current := row.request.parent;
    }
    return None;
  }

  method AnyLiveDescendant(t: Table, x: Id) returns (found: bool)
    requires Forest(t)
    ensures found == HasLiveDescendant(t, x)
  {
    var pending := t.Keys;
    while pending != {}
      invariant pending <= t.Keys
      invariant forall y :: y in t && y !in pending ==> y == x || t[y].state.Released? || !Descends(t, y, x)
      decreases |pending|
    {
      var y :| y in pending;
      if y != x && !t[y].state.Released? {
        var below := DescendsFrom(t, y, x);
        if below {
          return true;
        }
      }
      pending := pending - {y};
    }
    return false;
  }

  method LeastRemaining(t: Table, x: Id, elapsed: int, whole: int) returns (remaining: int)
    requires Forest(t) && x in t
    ensures remaining == ChainRemaining(t, x, elapsed, whole)
  {
    remaining := whole;
    var current := Some(x);
    while current.Some?
      invariant current.Some? ==> current.value in t
      invariant ChainRemaining(t, x, elapsed, whole)
        == if current.Some? then ChainRemaining(t, current.value, elapsed, remaining) else remaining
      decreases if current.Some? then t[current.value].depth + 1 else 0
    {
      var own := t[current.value].limits.maxElapsed - elapsed;
      if own < remaining {
        remaining := own;
      }
      current := t[current.value].request.parent;
    }
  }
}
