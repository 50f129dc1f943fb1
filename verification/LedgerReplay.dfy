/** Denied and repeated calls: what they leave alone, in every later state. */
module LedgerReplay {
  import opened Common
  import opened BudgetTypes
  import opened AttemptForest
  import opened Sums
  import opened LedgerSpec
  import opened LedgerInvariant
  import opened LedgerRuns

  /** A call that raises changes at most the stored clock reading. */
  lemma RefusalChangesOnlyTheClock(l: Ledger, op: Op, now: nat)
    requires Inv(l) && !Step(l, op, now).1.Accepted()
    ensures Step(l, op, now).0 == l.(lastSeen := Step(l, op, now).0.lastSeen)
    ensures Step(l, op, now).1.Denied? ==> l.lastSeen <= now && Step(l, op, now).0.lastSeen == now
    ensures Step(l, op, now).1 == Faulted(ClockMovedBackward) <==> ReadsClock(l, op) && now < l.lastSeen
    ensures Step(l, op, now).1 != Faulted(ConstraintViolated)
  {
    hide Caps, Receipts, Grants, Narrow, Fanout, Shallow, ReleasedClosed, Shaped, ReserveDenial, ReconcileDenial,
      WalkDenial, ClaimDenial, HasLiveDescendant, SnapshotOf, ChainRemaining, CancelTable, RecoverTable, Matches,
      Consume, Establish;
    if op.MarkDispatched? && WellFormed(op) && l.lastSeen <= now {
      var k := l.(lastSeen := now);
      if DispatchDenial(k, op.id, op.approval, op.claim).None? {
        ReservedHasNoGrants(l, op.id);
      }
    }
  }

  // ---------------------------------------------------------------- reserve

  /** The reservation is stored with exactly these arguments. */
  ghost predicate Holds(l: Ledger, q: Request, child: Option<Limits>)
    requires Forest(l.attempts)
  {
    && q.id in l.attempts
    && l.attempts[q.id].request == q
    && l.attempts[q.id].limits == Effective(l, l.attempts[q.id].request.parent, child)
  }

  lemma AcceptedReserveHolds(l: Ledger, q: Request, child: Option<Limits>, now: nat)
    requires Inv(l) && Step(l, Reserve(q, child), now).1.Accepted()
    ensures Forest(Step(l, Reserve(q, child), now).0.attempts)
    ensures Holds(Step(l, Reserve(q, child), now).0, q, child)
  {
    hide Caps, Receipts, Grants, Narrow, Fanout, Shallow, ReleasedClosed, Shaped, OverdrawnBy;
    StepKeepsInv(l, Reserve(q, child), now);
  }

  lemma HoldsStays(l: Ledger, k: Ledger, q: Request, child: Option<Limits>)
    requires Forest(l.attempts) && Forest(k.attempts) && Progress(l, k) && Holds(l, q, child)
    ensures Holds(k, q, child)
  {
    assert RowEvolves(l.attempts[q.id], k.attempts[q.id]);
    if q.parent.Some? {
      assert RowEvolves(l.attempts[q.parent.value], k.attempts[q.parent.value]);
    }
  }

  lemma HoldsInRun(h: History, q: Request, child: Option<Limits>, now: nat, calls: seq<Call>)
    requires Sound(h) && Step(h.ledger, Reserve(q, child), now).1.Accepted()
    ensures
      var k := Run(h, [Call(Reserve(q, child), now)] + calls).ledger;
      Forest(k.attempts) && Holds(k, q, child)
  {
    hide Inv, LogMatches, SourcesFirst, Progress, Action, Holds, Forest;
    InvIsForest(h.ledger);
    var first := Call(Reserve(q, child), now);
    RunCons(h, first, calls);
    var next := Advance(h, first);
    AcceptedReserveHolds(h.ledger, q, child, now);
    RunProgress(next, calls);
    InvIsForest(Run(next, calls).ledger);
    HoldsStays(next.ledger, Run(next, calls).ledger, q, child);
  }

  /** Repeating an accepted reservation, after any run, succeeds and changes only the clock. */
  lemma ReserveReplay(h: History, q: Request, child: Option<Limits>, now: nat, calls: seq<Call>, later: nat)
    requires Sound(h) && Step(h.ledger, Reserve(q, child), now).1.Accepted()
    ensures
      var first := Call(Reserve(q, child), now);
      var k := Run(h, [first] + calls).ledger;
      k.lastSeen <= later ==>
        && q.id in k.attempts
        && Step(k, Reserve(q, child), later) == (k.(lastSeen := later), Attempted(AttemptOf(k.attempts[q.id])))
  {
    hide Caps, Receipts, Grants, Narrow, Fanout, Shallow, ReleasedClosed, Shaped, LogMatches, SourcesFirst,
      ReserveDenial, Progress;
    HoldsInRun(h, q, child, now, calls);
  }

  lemma EffectiveStays(l: Ledger, k: Ledger, parent: Option<Id>, child: Option<Limits>)
    requires Progress(l, k) && (parent.Some? ==> parent.value in l.attempts)
    ensures parent.Some? ==> parent.value in k.attempts
    ensures Effective(k, parent, child) == Effective(l, parent, child)
  {
    if parent.Some? {
      assert RowEvolves(l.attempts[parent.value], k.attempts[parent.value]);
    }
  }

  lemma AcceptedReserveHasParent(l: Ledger, q: Request, child: Option<Limits>, now: nat)
    requires Inv(l) && Step(l, Reserve(q, child), now).1.Accepted()
    ensures q.parent.Some? ==> q.parent.value in l.attempts
  {
    hide Caps, Receipts, Grants, Narrow, Fanout, Shallow, ReleasedClosed, Shaped, OverdrawnBy;
  }

  /**
   After an accepted reservation and any run, its id is refused exactly to other requests and to limits that
   differ in effect from those it was admitted with.
   */
  lemma ReserveReuseIsDenied(h: History, q: Request, child: Option<Limits>, now: nat, calls: seq<Call>,
                             other: Request, limits: Option<Limits>, later: nat)
    requires Sound(h) && Step(h.ledger, Reserve(q, child), now).1.Accepted() && other.id == q.id
    ensures q.parent.Some? ==> q.parent.value in h.ledger.attempts
    ensures
      var k := Run(h, [Call(Reserve(q, child), now)] + calls).ledger;
      var reply := Step(k, Reserve(other, limits), later).1;
      k.lastSeen <= later ==>
        && (reply == Denied(ConflictingAttempt) <==> !reply.Accepted())
        && (reply.Accepted() <==>
              other == q && Effective(h.ledger, q.parent, limits) == Effective(h.ledger, q.parent, child))
  {
    hide Caps, Receipts, Grants, Narrow, Fanout, Shallow, ReleasedClosed, Shaped, LogMatches, SourcesFirst,
      ReserveDenial, Progress;
    var first := Call(Reserve(q, child), now);
    var k := Run(h, [first] + calls).ledger;
    AcceptedReserveHasParent(h.ledger, q, child, now);
    RunProgress(h, [first] + calls);
    EffectiveStays(h.ledger, k, q.parent, child);
    EffectiveStays(h.ledger, k, q.parent, limits);
    HoldsInRun(h, q, child, now, calls);
  }

  // ---------------------------------------------------------------- reconcile

  ghost predicate Recorded(l: Ledger, r: Receipt, establishes: Option<Claim>) {
    && r.id in l.receipts && l.receipts[r.id] == r
    && r.attempt in l.attempts
    && (establishes.Some? ==> Matches(l.prerequisites, establishes.value, r.attempt))
  }

  lemma AcceptedReconcileIsRecorded(l: Ledger, r: Receipt, establishes: Option<Claim>, now: nat)
    requires Inv(l) && Step(l, Reconcile(r, establishes), now).1.Accepted()
    ensures Recorded(Step(l, Reconcile(r, establishes), now).0, r, establishes)
  {
    hide Caps, Receipts, Grants, Narrow, Fanout, Shallow, ReleasedClosed, Shaped;
  }

  lemma RecordedStays(l: Ledger, k: Ledger, r: Receipt, establishes: Option<Claim>)
    requires Progress(l, k) && Recorded(l, r, establishes)
    ensures Recorded(k, r, establishes)
  {
  }

  lemma RecordedIsNoOp(l: Ledger, r: Receipt, establishes: Option<Claim>, now: nat)
    requires Inv(l) && Recorded(l, r, establishes) && l.lastSeen <= now && WellFormed(Reconcile(r, establishes))
    ensures Step(l, Reconcile(r, establishes), now)
         == (l.(lastSeen := now), Attempted(AttemptOf(l.attempts[r.attempt])))
  {
    hide Caps, Receipts, Grants, Narrow, Fanout, Shallow, ReleasedClosed, Shaped;
  }

  lemma RecordedInRun(h: History, r: Receipt, establishes: Option<Claim>, now: nat, calls: seq<Call>)
    requires Sound(h) && Step(h.ledger, Reconcile(r, establishes), now).1.Accepted()
    ensures Recorded(Run(h, [Call(Reconcile(r, establishes), now)] + calls).ledger, r, establishes)
  {
    hide Inv, LogMatches, SourcesFirst, Progress, Action, Recorded, Forest;
    InvIsForest(h.ledger);
    var first := Call(Reconcile(r, establishes), now);
    RunCons(h, first, calls);
    AcceptedReconcileIsRecorded(h.ledger, r, establishes, now);
    RunProgress(Advance(h, first), calls);
    RecordedStays(Advance(h, first).ledger, Run(Advance(h, first), calls).ledger, r, establishes);
  }

  /** Repeating an accepted reconciliation, after any run, succeeds and changes only the clock. */
  lemma ReconcileReplay(h: History, r: Receipt, establishes: Option<Claim>, now: nat, calls: seq<Call>, later: nat)
    requires Sound(h) && Step(h.ledger, Reconcile(r, establishes), now).1.Accepted()
    ensures
      var first := Call(Reconcile(r, establishes), now);
      var k := Run(h, [first] + calls).ledger;
      k.lastSeen <= later ==>
        && r.attempt in k.attempts
        && Step(k, Reconcile(r, establishes), later)
        == (k.(lastSeen := later), Attempted(AttemptOf(k.attempts[r.attempt])))
  {
    hide Inv, LogMatches, SourcesFirst, Action, Forest;
    InvIsForest(h.ledger);
    RecordedInRun(h, r, establishes, now, calls);
    var k := Run(h, [Call(Reconcile(r, establishes), now)] + calls).ledger;
    if k.lastSeen <= later {
      RecordedIsNoOp(k, r, establishes, later);
    }
  }

  /** After an accepted reconciliation and any run, its receipt id conflicts exactly with other receipts. */
  lemma ReceiptReuseIsDenied(h: History, r: Receipt, establishes: Option<Claim>, now: nat, calls: seq<Call>,
                             other: Receipt, claim: Option<Claim>, later: nat)
    requires Sound(h) && Step(h.ledger, Reconcile(r, establishes), now).1.Accepted()
    requires other.id == r.id && WellFormed(Reconcile(other, claim))
    ensures
      var k := Run(h, [Call(Reconcile(r, establishes), now)] + calls).ledger;
      k.lastSeen <= later ==>
        (Step(k, Reconcile(other, claim), later).1 == Denied(ConflictingReceipt) <==> other != r)
  {
    hide Caps, Receipts, Grants, Narrow, Fanout, Shallow, ReleasedClosed, Shaped, LogMatches, SourcesFirst;
    RecordedInRun(h, r, establishes, now, calls);
  }

  /** What the read-only question confirms is that the same reconciliation would be a no-op. */
  lemma DurableIsNoOp(l: Ledger, r: Receipt, establishes: Option<Claim>, now: nat)
    requires Inv(l) && l.lastSeen <= now && WellFormed(Reconcile(r, establishes)) && IsDurable(l, r, establishes)
    ensures Step(l, Reconcile(r, establishes), now)
         == (l.(lastSeen := now), Attempted(AttemptOf(l.attempts[r.attempt])))
  {
    RecordedIsNoOp(l, r, establishes, now);
  }

  /** No stored receipt of the attempt knows more than this one. */
  ghost predicate Latest(l: Ledger, r: Receipt) {
    forall s :: s in l.receipts && l.receipts[s].attempt == r.attempt ==>
      && Keeps(l.receipts[s].tokens, r.tokens)
      && Keeps(l.receipts[s].cost, r.cost)
      && Keeps(l.receipts[s].bytes, r.bytes)
  }

  lemma LatestRepeatsRow(l: Ledger, r: Receipt)
    requires Inv(l) && Recorded(l, r, None)
    ensures l.attempts[r.attempt] == Reconciled(l.attempts[r.attempt], r) <==> Latest(l, r)
  {
    hide Caps, Grants, Narrow, Fanout, Shallow, ReleasedClosed, Forest;
    var row := l.attempts[r.attempt];
    assert AgreesWith(r, row) && RowShape(row);
    var w :| w in l.receipts && l.receipts[w].attempt == r.attempt && Repeats(l.receipts[w], row);
  }

  /** Nothing is known of a prerequisite beyond what the reconciliation itself established. */
  ghost predicate Untouched(l: Ledger, attempt: Id, establishes: Option<Claim>) {
    match establishes
    case None => !HasPrerequisite(l.prerequisites, attempt)
    case Some(c) => c.receipt in l.prerequisites && l.prerequisites[c.receipt].consumedBy.None?
  }

  /**
   In every state, a recorded reconciliation is reported durable exactly when no receipt of its attempt knows more,
   and its prerequisite is still unspent, or, if it named none, its attempt has none.
   */
  lemma DurableExactly(l: Ledger, r: Receipt, establishes: Option<Claim>)
    requires Inv(l) && Recorded(l, r, establishes)
    ensures IsDurable(l, r, establishes) <==> Latest(l, r) && Untouched(l, r.attempt, establishes)
  {
    hide Inv, Latest, Reconciled;
    LatestRepeatsRow(l, r);
  }

  /** The same over runs: what an accepted reconciliation is reported as, after anything else happened. */
  lemma DurableAfterAnyRun(h: History, r: Receipt, establishes: Option<Claim>, now: nat, calls: seq<Call>)
    requires Sound(h) && Step(h.ledger, Reconcile(r, establishes), now).1.Accepted()
    ensures
      var k := Run(h, [Call(Reconcile(r, establishes), now)] + calls).ledger;
      IsDurable(k, r, establishes) <==> Latest(k, r) && Untouched(k, r.attempt, establishes)
  {
    hide Caps, Receipts, Grants, Narrow, Fanout, Shallow, ReleasedClosed, Shaped, LogMatches, SourcesFirst,
      Progress, Action, Latest, IsDurable;
    RecordedInRun(h, r, establishes, now, calls);
    DurableExactly(Run(h, [Call(Reconcile(r, establishes), now)] + calls).ledger, r, establishes);
  }

  /**
   A first reconciliation is durable afterwards, unless it was silent about a prerequisite its attempt already
   had, or restated one that was already consumed.
   */
  lemma FreshReconcileIsDurable(l: Ledger, r: Receipt, establishes: Option<Claim>, now: nat)
    requires Inv(l) && r.id !in l.receipts
    requires Step(l, Reconcile(r, establishes), now).1.Accepted()
    ensures IsDurable(Step(l, Reconcile(r, establishes), now).0, r, establishes) <==>
      match establishes {
        case None => !HasPrerequisite(l.prerequisites, r.attempt)
        case Some(c) => c.receipt in l.prerequisites ==> l.prerequisites[c.receipt].consumedBy.None?
      }
  {
    hide Caps, Receipts, Grants, Narrow, Fanout, Shallow, ReleasedClosed, Shaped;
  }

  // ---------------------------------------------------------------- receipts of one attempt

  /** All receipts of one attempt agree with its row, and a settled attempt has exactly one complete receipt. */
  lemma ReceiptsOfOneAttempt(l: Ledger, r: Id, s: Id)
    requires Inv(l) && r in l.receipts && s in l.receipts && l.receipts[r].attempt == l.receipts[s].attempt
    ensures l.receipts[r].outcome == l.receipts[s].outcome
    ensures l.receipts[r].tokens.Some? && l.receipts[s].tokens.Some? ==> l.receipts[r].tokens == l.receipts[s].tokens
    ensures l.receipts[r].cost.Some? && l.receipts[s].cost.Some? ==> l.receipts[r].cost == l.receipts[s].cost
    ensures l.receipts[r].bytes.Some? && l.receipts[s].bytes.Some? ==> l.receipts[r].bytes == l.receipts[s].bytes
  {
    hide Caps, Grants, Narrow, Fanout, Shallow, ReleasedClosed, Shaped;
    assert AgreesWith(l.receipts[r], l.attempts[l.receipts[r].attempt]);
    assert AgreesWith(l.receipts[s], l.attempts[l.receipts[s].attempt]);
  }

  lemma SettledHasOneCompleteReceipt(l: Ledger, x: Id) returns (r: Id)
    requires Inv(l) && x in l.attempts && l.attempts[x].state.Settled?
    ensures r in l.receipts && l.receipts[r].attempt == x && Repeats(l.receipts[r], l.attempts[x])
    ensures l.receipts[r].FullyKnown()
    ensures forall s :: s in l.receipts && l.receipts[s].attempt == x && l.receipts[s].FullyKnown() ==> s == r
  {
    hide Caps, Grants, Narrow, Fanout, Shallow, ReleasedClosed;
    assert RowShape(l.attempts[x]);
    r :| r in l.receipts && l.receipts[r].attempt == x && Repeats(l.receipts[r], l.attempts[x]);
  }
}
