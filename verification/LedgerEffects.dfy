/** What each accepted operation does to the tables and answers, written out row by row. */
module LedgerEffects {
  import opened Common
  import opened BudgetTypes
  import opened AttemptForest
  import opened Sums
  import opened LedgerSpec
  import opened LedgerInvariant
  import opened LedgerRuns
  import opened LedgerWalks

  // ---------------------------------------------------------------- arguments and lookups

  /** Arguments are refused before the clock is read, for exactly three reasons. */
  lemma InvalidExactly(l: Ledger, op: Op, now: nat)
    requires Inv(l)
    ensures Step(l, op, now).1.Invalid? <==>
      || (op.MarkDispatched? && op.approval.Some? &&
          var intent := op.approval.value.intent;
          intent.expiresAt <= intent.issuedAt || |intent.payload.text| > 65536)
      || (op.Reconcile? && op.establishes.Some? && op.receipt.outcome != Completed)
    ensures Step(l, op, now).1.Invalid? ==> Step(l, op, now).0 == l
  {
    hide Caps, Receipts, Grants, Narrow, Fanout, Shallow, ReleasedClosed, Shaped, ReserveDenial, DispatchDenial,
      ReconcileDenial, HasLiveDescendant, SnapshotOf, ChainRemaining, CancelTable, RecoverTable;
  }

  /** A new store has its policy, has used up no time, and holds nothing. */
  lemma NewStore(policy: Policy, now: nat)
    ensures
      var l := Start(policy, now).ledger;
      && PolicyOf(l) == policy && l.started == l.lastSeen == now && !l.cancelled
      && l.attempts == map[] && l.receipts == map[] && l.prerequisites == map[]
      && l.approvals == map[] && l.intents == map[]
      && Step(l, RemainingElapsed(None), now).1 == Remaining(policy.limits.maxElapsed)
  {
    WholeRemaining(Start(policy, now).ledger, now);
  }

  /** The stored attempt as every reply shows it. */
  ghost predicate Shown(l: Ledger, x: Id, a: Attempt) {
    && x in l.attempts
    && a.id == x && a.parent == l.attempts[x].request.parent
    && a.state == l.attempts[x].state && a.depth == l.attempts[x].depth
  }

  /** Whatever operation answers with an attempt, the answer shows the row as stored afterwards. */
  lemma RepliesShowRows(l: Ledger, op: Op, now: nat)
    requires Inv(l) && Step(l, op, now).1.Attempted?
    ensures Shown(Step(l, op, now).0, Step(l, op, now).1.attempt.id, Step(l, op, now).1.attempt)
    ensures
      var id := Step(l, op, now).1.attempt.id;
      match op {
        case Reserve(q, _) => id == q.id
        case GetAttempt(x) => id == x
        case MarkDispatched(x, _, _) => id == x
        case MarkUncertain(x) => id == x
        case Release(x) => id == x
        case Reconcile(r, _) => id == r.attempt
        case _ => false
      }
  {
    hide Caps, Receipts, Grants, Narrow, Fanout, Shallow, ReleasedClosed, Shaped, ReserveDenial, DispatchDenial,
      ReconcileDenial, HasLiveDescendant, SnapshotOf, ChainRemaining, CancelTable, RecoverTable;
    var id := Step(l, op, now).1.attempt.id;
    match op {
      case Reserve(q, _) => if q.id in l.attempts { assert Fits(l.attempts, q.id, l.attempts[q.id]); }
      case GetAttempt(x) => assert Fits(l.attempts, x, l.attempts[x]);
      case MarkDispatched(x, _, _) => assert Fits(l.attempts, x, l.attempts[x]);
      case MarkUncertain(x) => assert Fits(l.attempts, x, l.attempts[x]);
      case Release(x) => assert Fits(l.attempts, x, l.attempts[x]);
      case Reconcile(r, _) => assert Fits(l.attempts, r.attempt, l.attempts[r.attempt]);
      case _ =>
    }
  }

  /** A lookup succeeds exactly for stored attempts and changes only the clock. */
  lemma LookUpExactly(l: Ledger, x: Id, now: nat)
    requires Inv(l) && l.lastSeen <= now
    ensures Step(l, GetAttempt(x), now).0 == l.(lastSeen := now)
    ensures Step(l, GetAttempt(x), now).1.Attempted? <==> x in l.attempts
    ensures x !in l.attempts ==> Step(l, GetAttempt(x), now).1 == Denied(AttemptNotFound)
  {
    hide Caps, Receipts, Grants, Narrow, Fanout, Shallow, ReleasedClosed, Shaped;
  }

  // ---------------------------------------------------------------- reserve

  /** A new attempt is stored once, with the limits and depth it inherits; nothing else changes but the clock. */
  lemma ReserveStores(l: Ledger, q: Request, child: Option<Limits>, now: nat)
    requires Inv(l) && q.id !in l.attempts && Step(l, Reserve(q, child), now).1.Accepted()
    ensures q.parent.Some? ==> q.parent.value in l.attempts
    ensures
      var (k, reply) := Step(l, Reserve(q, child), now);
      && k == l.(lastSeen := now, attempts := k.attempts)
      && k.attempts.Keys == l.attempts.Keys + {q.id}
      && (forall y :: y in l.attempts ==> k.attempts[y] == l.attempts[y])
      && var row := k.attempts[q.id];
         && row.request == q && row.state == Reserved && !row.cancelRequested
         && row.tokens == row.cost == row.bytes == None && row.outcome == None
         && (child.Some? ==> row.limits == child.value)
         && (child.None? && q.parent.Some? ==> row.limits == l.attempts[q.parent.value].limits)
         && (child.None? && q.parent.None? ==> row.limits == l.policy)
         && row.depth == if q.parent.Some? then l.attempts[q.parent.value].depth + 1 else 0
  {
    hide Caps, Receipts, Grants, Narrow, Fanout, Shallow, ReleasedClosed, Shaped, ReserveDenial;
  }

  // ---------------------------------------------------------------- dispatch

  /**
   A dispatch turns one reserved row into a dispatched one, spends the prerequisite and the approval it was given on
   it and no other, and stores the approval's intent; nothing else changes but the clock.
   */
  lemma DispatchSpends(l: Ledger, x: Id, approval: Option<Approval>, claim: Option<Claim>, now: nat)
    requires Inv(l) && Step(l, MarkDispatched(x, approval, claim), now).1.Accepted()
    ensures x in l.attempts && l.attempts[x].state.Reserved?
    ensures claim.Some? ==>
      claim.value.receipt in l.prerequisites && l.prerequisites[claim.value.receipt].consumedBy == None
    ensures
      var k := Step(l, MarkDispatched(x, approval, claim), now).0;
      && k == l.(lastSeen := now, attempts := k.attempts, prerequisites := k.prerequisites, approvals := k.approvals,
                 intents := k.intents)
      && k.attempts == l.attempts[x := l.attempts[x].(state := Dispatched)]
      && (claim.None? ==> k.prerequisites == l.prerequisites)
      && (claim.Some? ==>
            var p := claim.value.receipt;
            k.prerequisites == l.prerequisites[p := l.prerequisites[p].(consumedBy := Some(x))])
      && (approval.None? ==> k.approvals == l.approvals && k.intents == l.intents)
      && (approval.Some? ==>
            && approval.value.receipt !in l.approvals && x !in l.intents
            && k.approvals == l.approvals[approval.value.receipt := x]
            && k.intents == l.intents[x := approval.value.intent])
  {
    hide Caps, Receipts, Narrow, Fanout, Shallow, ReleasedClosed, WalkDenial, ApprovalsOnce, PrerequisitesOnce,
      PrerequisitesUsed, Forest, Shaped;
    InvIsForest(l);
    var k := l.(lastSeen := now);
    AcceptedDispatch(k, x, approval, claim);
    ReservedHasNoGrants(l, x);
  }

  /** The intent that an accepted dispatch stored is what the ledger answers for the attempt, in every later state. */
  lemma IntentIsKept(
    h: History, x: Id, approval: Approval, claim: Option<Claim>, now: nat, calls: seq<Call>, later: nat)
    requires Sound(h) && Step(h.ledger, MarkDispatched(x, Some(approval), claim), now).1.Accepted()
    ensures
      var k := Run(h, [Call(MarkDispatched(x, Some(approval), claim), now)] + calls).ledger;
      k.lastSeen <= later ==> Step(k, GetIntent(x), later) == (k.(lastSeen := later), Intended(approval.intent))
  {
    hide Inv, LogMatches, SourcesFirst, DispatchAction, Forest;
    InvIsForest(h.ledger);
    var first := Call(MarkDispatched(x, Some(approval), claim), now);
    RunCons(h, first, calls);
    DispatchSpends(h.ledger, x, Some(approval), claim, now);
    RunProgress(Advance(h, first), calls);
    InvIsForest(Run(Advance(h, first), calls).ledger);
  }

  /** An attempt without an approved dispatch has no intent to answer. */
  lemma NoIntentWithoutDispatch(l: Ledger, x: Id, now: nat)
    requires Inv(l) && l.lastSeen <= now
    ensures Step(l, GetIntent(x), now).1.Intended? ==> x in l.attempts && l.attempts[x].state.EverDispatched()
    ensures !Step(l, GetIntent(x), now).1.Intended? ==> Step(l, GetIntent(x), now).1 == Denied(IntentNotFound)
  {
    hide Caps, Receipts, Narrow, Fanout, Shallow, ReleasedClosed, Shaped;
  }

  /** Exactly the attempts in flight can be marked uncertain, and nothing else changes but the clock. */
  lemma UncertainExactly(l: Ledger, x: Id, now: nat)
    requires Inv(l) && l.lastSeen <= now
    ensures Step(l, MarkUncertain(x), now).1.Accepted() <==>
      x in l.attempts && (l.attempts[x].state == Dispatched || l.attempts[x].state == Uncertain)
    ensures Step(l, MarkUncertain(x), now).1.Accepted() ==>
      Step(l, MarkUncertain(x), now).0
      == l.(lastSeen := now, attempts := l.attempts[x := l.attempts[x].(state := Uncertain)])
  {
    hide Caps, Receipts, Grants, Narrow, Fanout, Shallow, ReleasedClosed, Shaped;
  }

  /** A release turns one row into a released one, and nothing else changes but the clock. */
  lemma ReleaseFrees(l: Ledger, x: Id, now: nat)
    requires Inv(l) && Step(l, Release(x), now).1.Accepted()
    ensures x in l.attempts && (l.attempts[x].state == Reserved || l.attempts[x].state == Released)
    ensures Step(l, Release(x), now).0
         == l.(lastSeen := now, attempts := l.attempts[x := l.attempts[x].(state := Released)])
  {
    hide Caps, Receipts, Grants, Narrow, Fanout, Shallow, ReleasedClosed, Shaped, HasLiveDescendant;
  }

  // ---------------------------------------------------------------- reconcile

  /**
   A new receipt is stored and copied into its attempt's row, which settles when the receipt is complete; a
   prerequisite it establishes is stored unspent, with the attempt as its source.
   */
  lemma ReconcileStores(l: Ledger, r: Receipt, establishes: Option<Claim>, now: nat)
    requires Inv(l) && r.id !in l.receipts && Step(l, Reconcile(r, establishes), now).1.Accepted()
    ensures r.attempt in l.attempts
    ensures
      var k := Step(l, Reconcile(r, establishes), now).0;
      && k == l.(lastSeen := now, attempts := k.attempts, receipts := l.receipts[r.id := r],
                 prerequisites := k.prerequisites)
      && k.attempts == l.attempts[r.attempt := l.attempts[r.attempt].(
           state := if r.tokens.Some? && r.cost.Some? && r.bytes.Some? then Settled else UsageUnknown,
           outcome := Some(r.outcome), tokens := r.tokens, cost := r.cost, bytes := r.bytes)]
      && (establishes.None? ==> k.prerequisites == l.prerequisites)
      && (establishes.Some? ==>
            var p := establishes.value.receipt;
            if p in l.prerequisites then k.prerequisites == l.prerequisites
            else k.prerequisites == l.prerequisites[p := Prerequisite(r.attempt, establishes.value.payload, None)])
  {
    hide Caps, Receipts, Grants, Narrow, Fanout, Shallow, ReleasedClosed, Shaped, ReconcileDenial;
  }

  // ---------------------------------------------------------------- cancellation

  /** A cancellation asks every active attempt to stop and releases the reserved ones. */
  lemma CancelStops(l: Ledger, now: nat)
    requires Inv(l) && l.lastSeen <= now
    ensures
      var (k, reply) := Step(l, Cancel, now);
      && reply == Done
      && k == l.(lastSeen := now, cancelled := true, attempts := k.attempts)
      && k.attempts.Keys == l.attempts.Keys
      && forall x :: x in l.attempts ==>
           var before := l.attempts[x];
           k.attempts[x] == match before.state {
             case Reserved => before.(state := Released, cancelRequested := true)
             case Dispatched => before.(cancelRequested := true)
             case Uncertain => before.(cancelRequested := true)
             case _ => before
           }
  {
    hide Caps, Receipts, Grants, Narrow, Fanout, Shallow, ReleasedClosed, Shaped;
  }

  /** Nothing is asked to stop before a cancellation. */
  ghost predicate AskedOnlyWhenCancelled(l: Ledger) {
    !l.cancelled ==> forall x :: x in l.attempts ==> !l.attempts[x].cancelRequested
  }

  lemma StepKeepsAsked(l: Ledger, op: Op, now: nat)
    requires Inv(l) && AskedOnlyWhenCancelled(l)
    ensures AskedOnlyWhenCancelled(Step(l, op, now).0)
  {
    hide Caps, Receipts, Grants, Narrow, Fanout, Shallow, ReleasedClosed, Shaped, ReserveDenial, DispatchDenial,
      ReconcileDenial, HasLiveDescendant, SnapshotOf, ChainRemaining;
  }

  lemma {:induction false} RunKeepsAsked(h: History, calls: seq<Call>)
    requires Sound(h) && AskedOnlyWhenCancelled(h.ledger)
    ensures AskedOnlyWhenCancelled(Run(h, calls).ledger)
    decreases |calls|
  {
    hide Inv, LogMatches, SourcesFirst, Step, AskedOnlyWhenCancelled, Forest;
    if calls != [] {
      InvIsForest(h.ledger);
      AdvanceKeepsSound(h, calls[0]);
      StepKeepsAsked(h.ledger, calls[0].op, calls[0].now);
      RunKeepsAsked(Advance(h, calls[0]), calls[1..]);
    }
  }

  /** In a run without an accepted cancellation no report says that a stop was requested. */
  lemma NothingRequestedBeforeCancel(policy: Policy, start: nat, calls: seq<Call>, x: Id, now: nat)
    ensures
      var l := Run(Start(policy, start), calls).ledger;
      var reply := Step(l, CancellationReport(x), now).1;
      !l.cancelled && reply.Reported? ==>
        !reply.report.requested && !reply.report.stopConfirmed && !reply.report.pending
  {
    hide Inv, LogMatches, SourcesFirst, Forest;
    RunKeepsAsked(Start(policy, start), calls);
    InvIsForest(Run(Start(policy, start), calls).ledger);
  }

  /** Only a cancellation cancels. */
  lemma OnlyCancelCancels(l: Ledger, op: Op, now: nat)
    requires Inv(l)
    ensures Step(l, op, now).0.cancelled <==> l.cancelled || (op.Cancel? && l.lastSeen <= now)
  {
    hide Caps, Receipts, Grants, Narrow, Fanout, Shallow, ReleasedClosed, Shaped, ReserveDenial, DispatchDenial,
      ReconcileDenial, HasLiveDescendant, SnapshotOf, ChainRemaining;
  }

  /** A report in terms of the row it is about. */
  lemma ReportExactly(l: Ledger, x: Id, now: nat)
    requires Inv(l) && l.lastSeen <= now
    ensures Step(l, CancellationReport(x), now).0 == l.(lastSeen := now)
    ensures x !in l.attempts ==> Step(l, CancellationReport(x), now).1 == Denied(AttemptNotFound)
    ensures x in l.attempts ==>
      var row, reply := l.attempts[x], Step(l, CancellationReport(x), now).1;
      && reply.Reported?
      && reply.report.id == x && reply.report.outcome == row.outcome
      && (reply.report.requested <==> row.cancelRequested)
      && (reply.report.finalKnown <==> row.state == Released || row.state == Settled)
      && (reply.report.pending <==> row.cancelRequested && row.state != Released && row.state != Settled)
      && (reply.report.stopConfirmed <==>
            row.cancelRequested
            && (row.state == Released || row.outcome == Some(RunnerStopped) || row.outcome == Some(Cancelled)))
  {
    hide Caps, Receipts, Grants, Narrow, Fanout, Shallow, ReleasedClosed, Shaped;
    if x in l.attempts {
      assert Fits(l.attempts, x, l.attempts[x]);
    }
  }

  // ---------------------------------------------------------------- remaining time

  /** The whole engagement has the time of its policy left, no attempt has more, and an unknown one has none to tell. */
  lemma WholeRemaining(l: Ledger, now: nat)
    requires Inv(l) && l.lastSeen <= now
    ensures forall x :: x !in l.attempts ==> Step(l, RemainingElapsed(Some(x)), now).1 == Denied(AttemptNotFound)
    ensures
      var whole := l.policy.maxElapsed - (now - l.started);
      Step(l, RemainingElapsed(None), now)
      == (l.(lastSeen := now), Remaining(if whole > 0 then whole else 0))
    ensures forall x :: x in l.attempts ==>
      && Step(l, RemainingElapsed(Some(x)), now).1.Remaining?
      && Step(l, RemainingElapsed(Some(x)), now).1.ms <= Step(l, RemainingElapsed(None), now).1.ms
  {
    hide Caps, Receipts, Grants, Narrow, Fanout, Shallow, ReleasedClosed, Shaped, ChainRemaining;
    forall x | x in l.attempts
      ensures Step(l, RemainingElapsed(Some(x)), now).1.Remaining?
      ensures Step(l, RemainingElapsed(Some(x)), now).1.ms <= Step(l, RemainingElapsed(None), now).1.ms
    {
      RemainingIsOwn(l, x, now);
      NarrowBelowPolicy(l, x);
    }
  }
}
