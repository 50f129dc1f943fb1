/** What a row is charged, and sums of charges over sets of attempts. */
module Sums {
  import opened Common
  import opened BudgetTypes

  /** The five quantities that a snapshot counts. */
  datatype Meter = Attempts | Tokens | Cost | Bytes | Active

  function Cap(m: Meter, limits: Limits): nat {
    match m
    case Attempts => limits.maxAttempts
    case Tokens => limits.maxTokens
    case Cost => limits.maxCost
    case Bytes => limits.maxBytes
    case Active => limits.maxConcurrency
  }

  function Estimate(m: Meter, row: Row): nat {
    match m
    case Attempts => 1
    case Tokens => row.request.tokens
    case Cost => row.request.cost
    case Bytes => row.request.bytes
    case Active => 1
  }

  function ReportedUse(m: Meter, row: Row): Option<nat> {
    match m
    case Attempts => None
    case Tokens => row.tokens
    case Cost => row.cost
    case Bytes => row.bytes
    case Active => None
  }

  /** A settled row is charged what was reported; any other, the larger of report and reservation. */
  function Usage(state: State, reported: Option<nat>, reserved: nat): nat {
    match reported
    case None => reserved
    case Some(n) => if state.Settled? || n > reserved then n else reserved
  }

  function Charge(m: Meter, row: Row): nat {
    if m.Active? then (if row.state.Active() then 1 else 0)
    else if row.state.Charged() then Usage(row.state, ReportedUse(m, row), Estimate(m, row))
    else 0
  }

  /** How far a report went beyond the reservation. */
  function Overrun(m: Meter, row: Row): nat {
    match ReportedUse(m, row)
    case None => 0
    case Some(n) => if n > Estimate(m, row) then n - Estimate(m, row) else 0
  }

  /** Charges and overruns are summed alike. */
  datatype Column = Charged(m: Meter) | Over(m: Meter)

  function Value(c: Column, row: Row): nat {
    match c
    case Charged(m) => Charge(m, row)
    case Over(m) => Overrun(m, row)
  }

  ghost function Sum(c: Column, t: Table, ids: set<Id>): nat
    requires ids <= t.Keys
  {
    if ids == {} then 0
    else
      var x :| x in ids;
      Value(c, t[x]) + Sum(c, t, ids - {x})
  }

  lemma {:induction false} SumRemove(c: Column, t: Table, ids: set<Id>, x: Id)
    requires ids <= t.Keys && x in ids
    ensures Sum(c, t, ids) == Value(c, t[x]) + Sum(c, t, ids - {x})
  {
    var y :| y in ids && Sum(c, t, ids) == Value(c, t[y]) + Sum(c, t, ids - {y});
    if y != x {
      SumRemove(c, t, ids - {y}, x);
      SumRemove(c, t, ids - {x}, y);
      assert ids - {x} - {y} == ids - {y} - {x};
    }
  }

  lemma SumAdd(c: Column, t: Table, ids: set<Id>, x: Id)
    requires ids <= t.Keys && x in t && x !in ids
    ensures Sum(c, t, ids + {x}) == Sum(c, t, ids) + Value(c, t[x])
  {
    SumRemove(c, t, ids + {x}, x);
    assert ids + {x} - {x} == ids;
  }

  lemma {:induction false} SumPointwise(c: Column, t: Table, u: Table, ids: set<Id>)
    requires ids <= t.Keys && ids <= u.Keys
    requires forall x :: x in ids ==> Value(c, t[x]) == Value(c, u[x])
    ensures Sum(c, t, ids) == Sum(c, u, ids)
  {
    if ids != {} {
      var x :| x in ids;
      SumRemove(c, t, ids, x);
      SumRemove(c, u, ids, x);
      SumPointwise(c, t, u, ids - {x});
    }
  }

  lemma {:induction false} SumSubset(c: Column, t: Table, ids: set<Id>, more: set<Id>)
    requires ids <= more <= t.Keys
    ensures Sum(c, t, ids) <= Sum(c, t, more)
  {
    if ids != more {
      var x :| x in more && x !in ids;
      SumRemove(c, t, more, x);
      SumSubset(c, t, ids, more - {x});
    }
  }

  lemma {:induction false} SumZero(c: Column, t: Table, ids: set<Id>)
    requires ids <= t.Keys
    requires forall x :: x in ids ==> Value(c, t[x]) == 0
    ensures Sum(c, t, ids) == 0
  {
    if ids != {} {
      var x :| x in ids;
      SumRemove(c, t, ids, x);
      SumZero(c, t, ids - {x});
    }
  }

  lemma PositiveSumHasPositiveRow(c: Column, t: Table, ids: set<Id>) returns (x: Id)
    requires ids <= t.Keys && Sum(c, t, ids) > 0
    ensures x in ids && Value(c, t[x]) > 0
  {
    assert exists y :: y in ids && Value(c, t[y]) > 0 by {
      if forall y :: y in ids ==> Value(c, t[y]) == 0 {
        SumZero(c, t, ids);
      }
    }
    x :| x in ids && Value(c, t[x]) > 0;
  }

  ghost predicate Within(t: Table, ids: set<Id>, limits: Limits)
    requires ids <= t.Keys
  {
    forall m: Meter :: Sum(Charged(m), t, ids) <= Cap(m, limits)
  }

  /** The caps hold up to what reports went over their reservations. */
  ghost predicate Capped(t: Table, ids: set<Id>, limits: Limits)
    requires ids <= t.Keys
  {
    forall m: Meter :: Sum(Charged(m), t, ids) <= Cap(m, limits) + Sum(Over(m), t, ids)
  }

  ghost function SnapshotOf(t: Table, ids: set<Id>, limits: Limits): Snapshot
    requires ids <= t.Keys
  {
    Snapshot(
      Sum(Charged(Attempts), t, ids),
      Sum(Charged(Tokens), t, ids),
      Sum(Charged(Cost), t, ids),
      Sum(Charged(Bytes), t, ids),
      Sum(Charged(Active), t, ids),
      !Within(t, ids, limits))
  }
}
