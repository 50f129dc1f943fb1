/** What a snapshot counts, in terms of requests and receipts, and how each operation moves it. */
module LedgerAccounts {
  import opened Common
  import opened BudgetTypes
  import opened AttemptForest
  import opened Sums
  import opened LedgerSpec
  import opened LedgerInvariant
  import opened LedgerRuns
  import opened LedgerTheorems
  import opened LedgerEffects

  /** The snapshot that the ledger answers with. */
  ghost function SnapshotAt(l: Ledger, now: nat): Snapshot
    requires Forest(l.attempts) && l.lastSeen <= now
  {
    Step(l, TakeSnapshot, now).1.snapshot
  }

  ghost function Live(t: Table): set<Id> {
    set x | x in t && t[x].state != Released
  }

  ghost function InState(t: Table, s: State): set<Id> {
    set x | x in t && t[x].state == s
  }

  ghost function Total(amounts: map<Id, nat>): nat {
    if amounts == map[] then 0
    else
      var x :| x in amounts;
      amounts[x] + Total(amounts - {x})
  }

  function Larger(reported: Option<nat>, reserved: nat): nat {
    if reported.Some? && reported.value > reserved then reported.value else reserved
  }

  // ---------------------------------------------------------------- sums

  lemma {:induction false} TotalRemove(amounts: map<Id, nat>, x: Id)
    requires x in amounts
    ensures Total(amounts) == amounts[x] + Total(amounts - {x})
    decreases |amounts|
  {
    var y :| y in amounts && Total(amounts) == amounts[y] + Total(amounts - {y});
    if y != x {
      TotalRemove(amounts - {y}, x);
      TotalRemove(amounts - {x}, y);
      assert amounts - {x} - {y} == amounts - {y} - {x};
    }
  }

  lemma {:induction false} SumIsTotal(c: Column, t: Table, amounts: map<Id, nat>)
    requires amounts.Keys <= t.Keys && forall x :: x in amounts ==> amounts[x] == Value(c, t[x])
    ensures Sum(c, t, amounts.Keys) == Total(amounts)
    decreases |amounts|
  {
    if amounts != map[] {
      var x :| x in amounts;
      SumRemove(c, t, amounts.Keys, x);
      TotalRemove(amounts, x);
      SumIsTotal(c, t, amounts - {x});
      assert (amounts - {x}).Keys == amounts.Keys - {x};
    }
  }

  lemma {:induction false} SumOfOnes(c: Column, t: Table, ids: set<Id>)
    requires ids <= t.Keys && forall x :: x in ids ==> Value(c, t[x]) == 1
    ensures Sum(c, t, ids) == |ids|
  {
    if ids != {} {
      var x :| x in ids;
      SumRemove(c, t, ids, x);
      SumOfOnes(c, t, ids - {x});
    }
  }

  /** The rows that count for nothing in the second table leave it exactly what they counted in the first. */
  lemma {:induction false} SumDrops(c: Column, t: Table, u: Table, ids: set<Id>, dropped: set<Id>)
    requires dropped <= ids <= t.Keys && ids <= u.Keys
    requires forall x :: x in ids ==> Value(c, u[x]) == if x in dropped then 0 else Value(c, t[x])
    ensures Sum(c, u, ids) + Sum(c, t, dropped) == Sum(c, t, ids)
    decreases |ids|
  {
    if ids != {} {
      var x :| x in ids;
      SumRemove(c, t, ids, x);
      SumRemove(c, u, ids, x);
      if x in dropped {
        SumRemove(c, t, dropped, x);
      }
      SumDrops(c, t, u, ids - {x}, dropped - {x});
      assert x !in dropped ==> dropped - {x} == dropped;
    }
  }

  lemma SumOfLive(c: Column, t: Table, counted: set<Id>)
    requires counted <= t.Keys && forall x :: x in t && x !in counted ==> Value(c, t[x]) == 0
    ensures Sum(c, t, t.Keys) == Sum(c, t, counted)
  {
    SumDrops(c, t, t, t.Keys, t.Keys - counted);
    SumZero(c, t, t.Keys - counted);
    SumSplits(c, t, t.Keys, counted);
  }

  lemma {:induction false} SumSplits(c: Column, t: Table, ids: set<Id>, part: set<Id>)
    requires part <= ids <= t.Keys
    ensures Sum(c, t, ids) == Sum(c, t, part) + Sum(c, t, ids - part)
    decreases |part|
  {
    if part == {} {
      assert ids - part == ids;
    } else {
      var x :| x in part;
      SumRemove(c, t, ids, x);
      SumRemove(c, t, part, x);
      SumSplits(c, t, ids - {x}, part - {x});
      assert ids - {x} - (part - {x}) == ids - part;
    }
  }

  lemma SumUpdate(c: Column, t: Table, x: Id, row: Row)
    requires x in t
    ensures Sum(c, t[x := row], t[x := row].Keys) + Value(c, t[x]) == Sum(c, t, t.Keys) + Value(c, row)
  {
    var u := t[x := row];
    assert u.Keys == t.Keys;
    SumRemove(c, t, t.Keys, x);
    SumRemove(c, u, t.Keys, x);
    SumPointwise(c, t, u, t.Keys - {x});
  }

  lemma SumInsert(c: Column, t: Table, x: Id, row: Row)
    requires x !in t
    ensures Sum(c, t[x := row], t[x := row].Keys) == Sum(c, t, t.Keys) + Value(c, row)
  {
    var u := t[x := row];
    assert u.Keys == t.Keys + {x};
    SumAdd(c, u, t.Keys, x);
    SumPointwise(c, t, u, t.Keys);
  }

  // ---------------------------------------------------------------- what a snapshot counts

  function AskTokens(q: Request): nat {
    q.tokens
  }

  function AskCost(q: Request): nat {
    q.cost
  }

  function AskBytes(q: Request): nat {
    q.bytes
  }

  function TokensOf(r: Receipt): Option<nat> {
    r.tokens
  }

  function CostOf(r: Receipt): Option<nat> {
    r.cost
  }

  function BytesOf(r: Receipt): Option<nat> {
    r.bytes
  }

  ghost predicate About(l: Ledger, r: Id, x: Id) {
    r in l.receipts && l.receipts[r].attempt == x
  }

  predicate Complete(r: Receipt) {
    r.tokens.Some? && r.cost.Some? && r.bytes.Some?
  }

  /**
   What a live attempt costs, from its receipts: what the complete one reports if there is one, and otherwise the
   reservation, or what a partial one reports if that is more.
   */
  ghost predicate IsDue(l: Ledger, x: Id, reserved: nat, report: Receipt -> Option<nat>, due: nat) {
    && (forall r :: About(l, r, x) && Complete(l.receipts[r]) ==> report(l.receipts[r]) == Some(due))
    && ((forall r :: About(l, r, x) ==> !Complete(l.receipts[r])) ==>
          && reserved <= due
          && (forall r :: About(l, r, x) && report(l.receipts[r]).Some? ==>
                due == Larger(report(l.receipts[r]), reserved))
          && ((forall r :: About(l, r, x) ==> report(l.receipts[r]).None?) ==> due == reserved))
  }

  /** The live attempts, each with what it costs. */
  ghost predicate Bill(l: Ledger, reserved: Request -> nat, report: Receipt -> Option<nat>, amounts: map<Id, nat>) {
    && amounts.Keys == Live(l.attempts)
    && forall x :: x in amounts ==> IsDue(l, x, reserved(l.attempts[x].request), report, amounts[x])
  }

  lemma RowIsDue(l: Ledger, x: Id, m: Meter, reserved: nat, report: Receipt -> Option<nat>)
    requires Inv(l) && x in l.attempts && l.attempts[x].state != Released
    requires m.Tokens? || m.Cost? || m.Bytes?
    requires reserved == Estimate(m, l.attempts[x])
    requires m.Tokens? ==> forall r :: report(r) == TokensOf(r)
    requires m.Cost? ==> forall r :: report(r) == CostOf(r)
    requires m.Bytes? ==> forall r :: report(r) == BytesOf(r)
    ensures IsDue(l, x, reserved, report, Charge(m, l.attempts[x]))
  {
    hide Inv, Receipts, About;
    ReceiptsTell(l, x);
  }

  /** What the receipts of an attempt say about its row. */
  lemma ReceiptsTell(l: Ledger, x: Id)
    requires Inv(l) && x in l.attempts
    ensures RowShape(l.attempts[x])
    ensures forall r :: About(l, r, x) ==>
      && r in l.receipts && AgreesWith(l.receipts[r], l.attempts[x])
      && (Complete(l.receipts[r]) ==> l.attempts[x].state.Settled?)
    ensures l.attempts[x].outcome.Some? ==> exists r :: About(l, r, x) && Repeats(l.receipts[r], l.attempts[x])
  {
    hide Caps, Grants, Narrow, Fanout, Shallow, ReleasedClosed, Forest;
    var row := l.attempts[x];
    assert RowShape(row);
    forall r | About(l, r, x)
      ensures AgreesWith(l.receipts[r], row)
      ensures Complete(l.receipts[r]) ==> row.state.Settled?
    {
      assert AgreesWith(l.receipts[r], l.attempts[l.receipts[r].attempt]);
    }
    if row.outcome.Some? {
      var w :| w in l.receipts && l.receipts[w].attempt == x && Repeats(l.receipts[w], row);
      assert About(l, w, x);
    }
  }

  lemma BillTotals(l: Ledger, m: Meter, reserved: Request -> nat, report: Receipt -> Option<nat>)
    requires Inv(l) && (m.Tokens? || m.Cost? || m.Bytes?)
    requires forall x :: x in l.attempts ==> reserved(l.attempts[x].request) == Estimate(m, l.attempts[x])
    requires m.Tokens? ==> forall r :: report(r) == TokensOf(r)
    requires m.Cost? ==> forall r :: report(r) == CostOf(r)
    requires m.Bytes? ==> forall r :: report(r) == BytesOf(r)
    ensures exists amounts ::
      Bill(l, reserved, report, amounts) && Total(amounts) == Sum(Charged(m), l.attempts, l.attempts.Keys)
  {
    hide Inv, IsDue;
    var t := l.attempts;
    var amounts := map x | x in Live(t) :: Charge(m, t[x]);
    forall x | x in amounts ensures IsDue(l, x, reserved(t[x].request), report, amounts[x]) {
      RowIsDue(l, x, m, reserved(t[x].request), report);
    }
    SumIsTotal(Charged(m), t, amounts);
    assert amounts.Keys == Live(t);
    SumOfLive(Charged(m), t, Live(t));
  }

  /**
   In every state a snapshot counts the attempts that are not released, the ones in flight or about to be, and what
   the live attempts cost according to their requests and receipts; it is over budget when a count exceeds its cap.
   */
  lemma SnapshotIsBill(l: Ledger, now: nat)
    requires Inv(l) && l.lastSeen <= now
    ensures Step(l, TakeSnapshot, now).0 == l.(lastSeen := now) && Step(l, TakeSnapshot, now).1.Counted?
    ensures Forest(l.attempts)
    ensures
      var s, t := SnapshotAt(l, now), l.attempts;
      && s.attempts == |Live(t)|
      && s.active == |InState(t, Reserved) + InState(t, Dispatched) + InState(t, Uncertain)|
      && (exists a :: Bill(l, AskTokens, TokensOf, a) && s.tokens == Total(a))
      && (exists a :: Bill(l, AskCost, CostOf, a) && s.cost == Total(a))
      && (exists a :: Bill(l, AskBytes, BytesOf, a) && s.bytes == Total(a))
      && (s.overBudget <==>
            || s.attempts > l.policy.maxAttempts || s.tokens > l.policy.maxTokens || s.cost > l.policy.maxCost
            || s.bytes > l.policy.maxBytes || s.active > l.policy.maxConcurrency)
  {
    hide Inv, Bill, Live, InState, SnapshotAt, Total, Sum;
    InvIsForest(l);
    SnapshotIsSums(l, now);
    CountsAttempts(l.attempts);
    BillTotals(l, Tokens, AskTokens, TokensOf);
    BillTotals(l, Cost, AskCost, CostOf);
    BillTotals(l, Bytes, AskBytes, BytesOf);
    OverBudgetExactly(l.attempts, l.policy);
  }

  lemma SnapshotIsSums(l: Ledger, now: nat)
    requires Forest(l.attempts) && l.lastSeen <= now
    ensures Step(l, TakeSnapshot, now).0 == l.(lastSeen := now) && Step(l, TakeSnapshot, now).1.Counted?
    ensures
      var s, t := SnapshotAt(l, now), l.attempts;
      && s.attempts == Sum(Charged(Attempts), t, t.Keys)
      && s.tokens == Sum(Charged(Tokens), t, t.Keys)
      && s.cost == Sum(Charged(Cost), t, t.Keys)
      && s.bytes == Sum(Charged(Bytes), t, t.Keys)
      && s.active == Sum(Charged(Active), t, t.Keys)
      && s.overBudget == !Within(t, t.Keys, l.policy)
  {
    hide Forest, Within, Sum;
  }

  lemma CountsAttempts(t: Table)
    ensures Sum(Charged(Attempts), t, t.Keys) == |Live(t)|
    ensures Sum(Charged(Active), t, t.Keys) == |InState(t, Reserved) + InState(t, Dispatched) + InState(t, Uncertain)|
  {
    var active := InState(t, Reserved) + InState(t, Dispatched) + InState(t, Uncertain);
    SumOfCounted(Charged(Attempts), t, t.Keys, Live(t));
    SumOfCounted(Charged(Active), t, t.Keys, active);
  }

  lemma OverBudgetExactly(t: Table, limits: Limits)
    ensures
      var s := SnapshotOf(t, t.Keys, limits);
      !Within(t, t.Keys, limits) <==>
        || s.attempts > limits.maxAttempts || s.tokens > limits.maxTokens || s.cost > limits.maxCost
        || s.bytes > limits.maxBytes || s.active > limits.maxConcurrency
  {
    if !Within(t, t.Keys, limits) {
      var m: Meter :| Sum(Charged(m), t, t.Keys) > Cap(m, limits);
      match m {
        case Attempts =>
        case Tokens =>
        case Cost =>
        case Bytes =>
        case Active =>
      }
    } else {
      assert Sum(Charged(Attempts), t, t.Keys) <= Cap(Attempts, limits);
      assert Sum(Charged(Tokens), t, t.Keys) <= Cap(Tokens, limits);
      assert Sum(Charged(Cost), t, t.Keys) <= Cap(Cost, limits);
      assert Sum(Charged(Bytes), t, t.Keys) <= Cap(Bytes, limits);
      assert Sum(Charged(Active), t, t.Keys) <= Cap(Active, limits);
    }
  }

  // ---------------------------------------------------------------- the caps, in rows

  ghost predicate InFlight(row: Row) {
    row.state == Reserved || row.state == Dispatched || row.state == Uncertain
  }

  lemma CountsWithin(t: Table, ids: set<Id>)
    requires ids <= t.Keys
    ensures Sum(Charged(Attempts), t, ids) == |set x | x in ids && t[x].state != Released|
    ensures Sum(Charged(Active), t, ids) == |set x | x in ids && InFlight(t[x])|
  {
    var live, active := set x | x in ids && t[x].state != Released, set x | x in ids && InFlight(t[x]);
    hide Sum;
    SumOfCounted(Charged(Attempts), t, ids, live);
    SumOfCounted(Charged(Active), t, ids, active);
  }

  lemma SumOfCounted(c: Column, t: Table, ids: set<Id>, counted: set<Id>)
    requires counted <= ids <= t.Keys
    requires forall x :: x in ids ==> Value(c, t[x]) == if x in counted then 1 else 0
    ensures Sum(c, t, ids) == |counted|
  {
    hide Sum, Value;
    SumSplits(c, t, ids, counted);
    SumZero(c, t, ids - counted);
    SumOfOnes(c, t, counted);
  }

  /**
   In every reachable state the rows that are not released, and those in flight, are within the caps of the policy
   and, in every subtree, within those of its root.
   */
  lemma RowsWithinCapsInEveryRun(policy: Policy, start: nat, calls: seq<Call>)
    ensures
      var t := Run(Start(policy, start), calls).ledger.attempts;
      && Forest(t)
      && |set x | x in t && t[x].state != Released| <= policy.limits.maxAttempts
      && |set x | x in t && InFlight(t[x])| <= policy.limits.maxConcurrency
      && forall a :: a in t ==>
           && |set x | x in Subtree(t, a) && t[x].state != Released| <= t[a].limits.maxAttempts
           && |set x | x in Subtree(t, a) && InFlight(t[x])| <= t[a].limits.maxConcurrency
  {
    hide Inv, LogMatches, SourcesFirst, Sum, InFlight, Forest, Run;
    var t := Run(Start(policy, start), calls).ledger.attempts;
    InvIsForest(Run(Start(policy, start), calls).ledger);
    CapsInEveryRun(policy, start, calls, Attempts);
    CapsInEveryRun(policy, start, calls, Active);
    CountsWithin(t, t.Keys);
    assert (set x | x in t.Keys && t[x].state != Released) == set x | x in t && t[x].state != Released;
    assert (set x | x in t.Keys && InFlight(t[x])) == set x | x in t && InFlight(t[x]);
    forall a | a in t
      ensures |set x | x in Subtree(t, a) && t[x].state != Released| <= t[a].limits.maxAttempts
      ensures |set x | x in Subtree(t, a) && InFlight(t[x])| <= t[a].limits.maxConcurrency
    {
      CountsWithin(t, Subtree(t, a));
    }
  }

  // ---------------------------------------------------------------- how operations move it

  /** The five numbers of a snapshot moved from s to s' by what leaves and what comes. */
  predicate Moves(s: Snapshot, leaves: Snapshot, comes: Snapshot, s': Snapshot) {
    && s'.attempts + leaves.attempts == s.attempts + comes.attempts
    && s'.tokens + leaves.tokens == s.tokens + comes.tokens
    && s'.cost + leaves.cost == s.cost + comes.cost
    && s'.bytes + leaves.bytes == s.bytes + comes.bytes
    && s'.active + leaves.active == s.active + comes.active
  }

  const NOTHING := Snapshot(0, 0, 0, 0, 0, false)

  function Counts(attempts: nat, tokens: nat, cost: nat, bytes: nat, active: nat): Snapshot {
    Snapshot(attempts, tokens, cost, bytes, active, false)
  }

  /** What a reservation counts for. */
  function Whole(q: Request): Snapshot {
    Counts(1, q.tokens, q.cost, q.bytes, 1)
  }

  ghost function RowCounts(row: Row): Snapshot {
    Counts(Charge(Attempts, row), Charge(Tokens, row), Charge(Cost, row), Charge(Bytes, row), Charge(Active, row))
  }

  lemma UpdateMoves(l: Ledger, k: Ledger, x: Id, row: Row, now: nat)
    requires Forest(l.attempts) && Forest(k.attempts) && l.lastSeen <= now && k.lastSeen <= now
    requires x in l.attempts && k.attempts == l.attempts[x := row]
    ensures Moves(SnapshotAt(l, now), RowCounts(l.attempts[x]), RowCounts(row), SnapshotAt(k, now))
  {
    SumUpdate(Charged(Attempts), l.attempts, x, row);
    SumUpdate(Charged(Tokens), l.attempts, x, row);
    SumUpdate(Charged(Cost), l.attempts, x, row);
    SumUpdate(Charged(Bytes), l.attempts, x, row);
    SumUpdate(Charged(Active), l.attempts, x, row);
  }

  lemma InsertMoves(l: Ledger, k: Ledger, x: Id, row: Row, now: nat)
    requires Forest(l.attempts) && Forest(k.attempts) && l.lastSeen <= now && k.lastSeen <= now
    requires x !in l.attempts && k.attempts == l.attempts[x := row]
    ensures Moves(SnapshotAt(l, now), NOTHING, RowCounts(row), SnapshotAt(k, now))
  {
    hide Forest, Sum, Charge, SnapshotAt;
    SnapshotIsSums(l, now);
    SnapshotIsSums(k, now);
    SumInsert(Charged(Attempts), l.attempts, x, row);
    SumInsert(Charged(Tokens), l.attempts, x, row);
    SumInsert(Charged(Cost), l.attempts, x, row);
    SumInsert(Charged(Bytes), l.attempts, x, row);
    SumInsert(Charged(Active), l.attempts, x, row);
  }

  /** A new attempt counts for what it asks. */
  lemma ReserveMoves(l: Ledger, q: Request, child: Option<Limits>, now: nat)
    requires Inv(l) && q.id !in l.attempts && Step(l, Reserve(q, child), now).1.Accepted()
    ensures
      var k := Step(l, Reserve(q, child), now).0;
      && l.lastSeen <= now && k.lastSeen == now && Forest(l.attempts) && Forest(k.attempts)
      && Moves(SnapshotAt(l, now), NOTHING, Whole(q), SnapshotAt(k, now))
  {
    hide Inv, Forest, ReserveAction, SnapshotAt, Moves;
    InvIsForest(l);
    StepKeepsInv(l, Reserve(q, child), now);
    ReserveStores(l, q, child, now);
    var k := Step(l, Reserve(q, child), now).0;
    InvIsForest(k);
    var row := k.attempts[q.id];
    assert k.attempts == l.attempts[q.id := row];
    InsertMoves(l, k, q.id, row, now);
  }

  /** A release gives back all that was reserved; releasing again gives back nothing. */
  lemma ReleaseMoves(l: Ledger, x: Id, now: nat)
    requires Inv(l) && Step(l, Release(x), now).1.Accepted()
    ensures
      var k := Step(l, Release(x), now).0;
      && l.lastSeen <= now && k.lastSeen == now && Forest(l.attempts) && Forest(k.attempts) && x in l.attempts
      && Moves(SnapshotAt(l, now), if l.attempts[x].state == Reserved then Whole(l.attempts[x].request) else NOTHING,
               NOTHING, SnapshotAt(k, now))
  {
    hide Caps, Receipts, Grants, Narrow, Fanout, Shallow, ReleasedClosed, Forest, ReleaseAction, SnapshotAt;
    InvIsForest(l);
    StepKeepsInv(l, Release(x), now);
    ReleaseFrees(l, x, now);
    var k := Step(l, Release(x), now).0;
    InvIsForest(k);
    assert RowShape(l.attempts[x]);
    UpdateMoves(l, k, x, l.attempts[x].(state := Released), now);
  }

  /** A dispatch, and marking it uncertain, move nothing. */
  lemma DispatchMovesNothing(l: Ledger, op: Op, now: nat)
    requires Inv(l) && (op.MarkDispatched? || op.MarkUncertain?) && Step(l, op, now).1.Accepted()
    ensures
      var k := Step(l, op, now).0;
      && l.lastSeen <= now && k.lastSeen == now && Forest(l.attempts) && Forest(k.attempts)
      && Moves(SnapshotAt(l, now), NOTHING, NOTHING, SnapshotAt(k, now))
  {
    hide Caps, Receipts, Grants, Narrow, Fanout, Shallow, ReleasedClosed, Forest, DispatchAction, SnapshotAt;
    InvIsForest(l);
    StepKeepsInv(l, op, now);
    var k := Step(l, op, now).0;
    InvIsForest(k);
    if op.MarkDispatched? {
      DispatchSpends(l, op.id, op.approval, op.claim, now);
      assert RowShape(l.attempts[op.id]);
      UpdateMoves(l, k, op.id, l.attempts[op.id].(state := Dispatched), now);
    } else {
      UncertainExactly(l, op.id, now);
      assert RowShape(l.attempts[op.id]);
      UpdateMoves(l, k, op.id, l.attempts[op.id].(state := Uncertain), now);
    }
  }

  /** What an attempt counts for, given what is known of it. */
  function Partly(q: Request, tokens: Option<nat>, cost: Option<nat>, bytes: Option<nat>): Snapshot {
    Counts(1, Larger(tokens, q.tokens), Larger(cost, q.cost), Larger(bytes, q.bytes), 0)
  }

  /**
   A new receipt replaces what its attempt counted for: the reservation, or with an earlier partial receipt the larger
   of reservation and report, by exactly what a complete receipt reports, or again by the larger of the two.
   */
  lemma ReceiptMoves(l: Ledger, r: Receipt, establishes: Option<Claim>, now: nat)
    requires Inv(l) && r.id !in l.receipts && Step(l, Reconcile(r, establishes), now).1.Accepted()
    ensures
      var k := Step(l, Reconcile(r, establishes), now).0;
      && l.lastSeen <= now && k.lastSeen == now && Forest(l.attempts) && Forest(k.attempts) && r.attempt in l.attempts
      && var row := l.attempts[r.attempt];
         && (row.state == Dispatched || row.state == Uncertain || row.state == UsageUnknown)
         && Moves(SnapshotAt(l, now),
              if row.state == UsageUnknown then Partly(row.request, row.tokens, row.cost, row.bytes)
              else Whole(row.request),
              if Complete(r) then Counts(1, r.tokens.value, r.cost.value, r.bytes.value, 0)
              else Partly(row.request, r.tokens, r.cost, r.bytes),
              SnapshotAt(k, now))
  {
    hide Caps, Receipts, Grants, Narrow, Fanout, Shallow, ReleasedClosed, Forest, SnapshotAt, Step, RowCounts, Whole,
      Partly, Moves;
    InvIsForest(l);
    StepKeepsInv(l, Reconcile(r, establishes), now);
    ReconcileStores(l, r, establishes, now);
    var k := Step(l, Reconcile(r, establishes), now).0;
    InvIsForest(k);
    assert RowShape(l.attempts[r.attempt]);
    AcceptedReceiptState(l, r, establishes, now);
    ReceiptCounts(l.attempts[r.attempt], k.attempts[r.attempt], r);
    UpdateMoves(l, k, r.attempt, k.attempts[r.attempt], now);
  }

  lemma AcceptedReceiptState(l: Ledger, r: Receipt, establishes: Option<Claim>, now: nat)
    requires Inv(l) && r.id !in l.receipts && Step(l, Reconcile(r, establishes), now).1.Accepted()
    ensures l.lastSeen <= now && r.attempt in l.attempts
    ensures
      var state := l.attempts[r.attempt].state;
      state == Dispatched || state == Uncertain || state == UsageUnknown
  {
    hide Caps, Receipts, Grants, Narrow, Fanout, Shallow, ReleasedClosed, Forest;
  }

  lemma ReceiptCounts(row: Row, after: Row, r: Receipt)
    requires RowShape(row) && (row.state == Dispatched || row.state == Uncertain || row.state == UsageUnknown)
    requires after == row.(state := if r.tokens.Some? && r.cost.Some? && r.bytes.Some? then Settled else UsageUnknown,
                           outcome := Some(r.outcome), tokens := r.tokens, cost := r.cost, bytes := r.bytes)
    ensures row.state != UsageUnknown ==> RowCounts(row) == Whole(row.request)
    ensures row.state == UsageUnknown ==> RowCounts(row) == Partly(row.request, row.tokens, row.cost, row.bytes)
    ensures RowCounts(after) ==
      if Complete(r) then Counts(1, r.tokens.value, r.cost.value, r.bytes.value, 0)
      else Partly(row.request, r.tokens, r.cost, r.bytes)
  {
  }

  /** The rows in a state, each with one number of its request. */
  ghost function Asked(l: Ledger, s: State, ask: Request -> nat): map<Id, nat> {
    map x | x in InState(l.attempts, s) :: ask(l.attempts[x].request)
  }

  /** A cancellation gives back exactly what was reserved and not dispatched. */
  lemma CancelMoves(l: Ledger, now: nat)
    requires Inv(l) && l.lastSeen <= now
    ensures
      var k := Step(l, Cancel, now).0;
      && k.lastSeen == now && Forest(l.attempts) && Forest(k.attempts)
      && var n := |InState(l.attempts, Reserved)|;
         Moves(SnapshotAt(l, now),
           Counts(n, Total(Asked(l, Reserved, AskTokens)), Total(Asked(l, Reserved, AskCost)),
                  Total(Asked(l, Reserved, AskBytes)), n),
           NOTHING, SnapshotAt(k, now))
  {
    hide Inv, Forest, CancelTable, Sum, Total, SnapshotAt, InState, Asked, Action;
    InvIsForest(l);
    StepKeepsInv(l, Cancel, now);
    CancelStops(l, now);
    var k, gone := Step(l, Cancel, now).0, InState(l.attempts, Reserved);
    InvIsForest(k);
    GoneInState(l.attempts);
    CancelDrops(l, k, Attempts, gone);
    CancelDrops(l, k, Tokens, gone);
    CancelDrops(l, k, Cost, gone);
    CancelDrops(l, k, Bytes, gone);
    CancelDrops(l, k, Active, gone);
    ReservedSums(l);
    SnapshotIsSums(l, now);
    SnapshotIsSums(k, now);
  }

  lemma GoneInState(t: Table)
    ensures InState(t, Reserved) <= t.Keys
  {
  }

  lemma ReservedSums(l: Ledger)
    requires Inv(l)
    ensures InState(l.attempts, Reserved) <= l.attempts.Keys
    ensures
      var t, gone := l.attempts, InState(l.attempts, Reserved);
      && Sum(Charged(Attempts), t, gone) == Sum(Charged(Active), t, gone) == |gone|
      && Sum(Charged(Tokens), t, gone) == Total(Asked(l, Reserved, AskTokens))
      && Sum(Charged(Cost), t, gone) == Total(Asked(l, Reserved, AskCost))
      && Sum(Charged(Bytes), t, gone) == Total(Asked(l, Reserved, AskBytes))
  {
    hide Inv, Sum, Total, Charge, Asked;
    GoneInState(l.attempts);
    ReservedCount(l, Attempts);
    ReservedCount(l, Active);
    ReservedTotal(l, Tokens, AskTokens);
    ReservedTotal(l, Cost, AskCost);
    ReservedTotal(l, Bytes, AskBytes);
  }

  lemma ReservedCount(l: Ledger, m: Meter)
    requires Inv(l) && (m.Attempts? || m.Active?)
    ensures InState(l.attempts, Reserved) <= l.attempts.Keys
    ensures Sum(Charged(m), l.attempts, InState(l.attempts, Reserved)) == |InState(l.attempts, Reserved)|
  {
    hide Caps, Receipts, Grants, Narrow, Fanout, Shallow, ReleasedClosed, Forest, Sum;
    SumOfOnes(Charged(m), l.attempts, InState(l.attempts, Reserved));
  }

  lemma ReservedTotal(l: Ledger, m: Meter, ask: Request -> nat)
    requires Inv(l)
    requires forall x :: x in l.attempts ==> ask(l.attempts[x].request) == Estimate(m, l.attempts[x])
    ensures InState(l.attempts, Reserved) <= l.attempts.Keys
    ensures Sum(Charged(m), l.attempts, InState(l.attempts, Reserved)) == Total(Asked(l, Reserved, ask))
  {
    hide Caps, Receipts, Grants, Narrow, Fanout, Shallow, ReleasedClosed, Forest, Sum, Total, Charge;
    var t, asked := l.attempts, Asked(l, Reserved, ask);
    assert asked.Keys == InState(t, Reserved);
    forall x | x in asked ensures asked[x] == Value(Charged(m), t[x]) {
      assert RowShape(t[x]);
      ReservedCharge(m, t[x]);
    }
    SumIsTotal(Charged(m), t, asked);
  }

  lemma ReservedCharge(m: Meter, row: Row)
    requires row.state.Reserved? && RowShape(row)
    ensures Charge(m, row) == Estimate(m, row)
  {
  }

  lemma CancelDrops(l: Ledger, k: Ledger, m: Meter, gone: set<Id>)
    requires gone == InState(l.attempts, Reserved) && k.attempts.Keys == l.attempts.Keys
    requires forall x :: x in l.attempts ==>
      var before := l.attempts[x];
      k.attempts[x] == match before.state {
        case Reserved => before.(state := Released, cancelRequested := true)
        case Dispatched => before.(cancelRequested := true)
        case Uncertain => before.(cancelRequested := true)
        case _ => before
      }
    ensures gone <= l.attempts.Keys
    ensures Sum(Charged(m), k.attempts, k.attempts.Keys) + Sum(Charged(m), l.attempts, gone)
         == Sum(Charged(m), l.attempts, l.attempts.Keys)
  {
    SumDrops(Charged(m), l.attempts, k.attempts, l.attempts.Keys, gone);
  }
}
