/** The exact answer of each operation that can refuse: which check decides, in terms of the tables alone. */
module LedgerAnswers {
  import opened Common
  import opened BudgetTypes
  import opened AttemptForest
  import opened Sums
  import opened LedgerSpec
  import opened LedgerInvariant
  import opened LedgerWalks
  import opened LedgerGates

  // ---------------------------------------------------------------- dispatch

  /** The answer to a dispatch; the walk to the root comes down to the attempt's own limit. */
  ghost function DispatchAnswer(l: Ledger, x: Id, approval: Option<Approval>, claim: Option<Claim>, now: nat): Reply {
    if x !in l.attempts then Denied(AttemptNotFound)
    else if l.cancelled then Denied(EngagementCancelled)
    else if now > l.started + l.policy.maxElapsed then Denied(DeadlineExpired)
    else if l.attempts[x].state != Reserved then Denied(NotReserved)
    else if now > l.started + l.attempts[x].limits.maxElapsed then Denied(SubtreeDeadlineExpired)
    else if approval.Some? && (now < approval.value.intent.issuedAt || now >= approval.value.intent.expiresAt) then
      Denied(ApprovalNotValid)
    else if claim.Some? && claim.value.receipt !in l.prerequisites then Denied(PrerequisiteMismatch)
    else if claim.Some? && l.prerequisites[claim.value.receipt].payload != claim.value.payload then
      Denied(PrerequisiteMismatch)
    else if claim.Some? && l.prerequisites[claim.value.receipt].consumedBy != None then Denied(PrerequisiteConsumed)
    else if approval.Some? && approval.value.receipt in l.approvals then Denied(ApprovalReused)
    else Attempted(Attempt(x, l.attempts[x].request.parent, Dispatched, l.attempts[x].depth))
  }

  lemma DispatchAnswers(l: Ledger, x: Id, approval: Option<Approval>, claim: Option<Claim>, now: nat)
    requires Inv(l) && l.lastSeen <= now && WellFormed(MarkDispatched(x, approval, claim))
    ensures Step(l, MarkDispatched(x, approval, claim), now).1 == DispatchAnswer(l, x, approval, claim, now)
  {
    hide Caps, Receipts, Grants, Narrow, Fanout, Shallow, ReleasedClosed, Shaped, WalkDenial, Forest;
    InvPieces(l);
    var k := l.(lastSeen := now);
    TickKeepsInv(l, now);
    if x in l.attempts && l.attempts[x].state.Reserved? && !l.cancelled {
      InvPieces(k);
      WalkWithoutReleases(k, x);
      ReservedHasNoGrants(l, x);
      IdIsOwn(l.attempts, x);
    }
  }

  lemma IdIsOwn(t: Table, x: Id)
    requires Forest(t) && x in t
    ensures t[x].request.id == x
  {
    assert Fits(t, x, t[x]);
  }

  // ---------------------------------------------------------------- reserve

  ghost predicate SubtreeFull(l: Ledger, q: Request)
    requires Forest(l.attempts) && (q.parent.Some? ==> q.parent.value in l.attempts)
  {
    exists a :: a in l.attempts && Above(l.attempts, q.parent, a)
      && !Room(l.attempts, Subtree(l.attempts, a), l.attempts[a].limits, q)
  }

  /** The answer to a new reservation; the walks over the ancestors come down to the parent where they can. */
  ghost function ReserveAnswer(l: Ledger, q: Request, child: Option<Limits>, now: nat): Reply
    requires Forest(l.attempts)
  {
    if l.cancelled then Denied(EngagementCancelled)
    else if now > l.started + l.policy.maxElapsed then Denied(DeadlineExpired)
    else if q.parent.Some? && q.parent.value !in l.attempts then Denied(ParentUnavailable)
    else if q.parent.Some? && l.attempts[q.parent.value].state == Released then Denied(ParentUnavailable)
    else
      var above := if q.parent.Some? then l.attempts[q.parent.value].limits else l.policy;
      var own := if child.Some? then child.value else above;
      if !own.IsWithin(above) then Denied(LimitsWidenParent)
      else if q.parent.Some? && |Children(l.attempts, q.parent.value)| >= above.maxChildren then Denied(FanoutReached)
      else if !DepthFits(l, q.parent) then Denied(DepthReached)
      else if q.parent.Some? && now > l.started + above.maxElapsed then Denied(SubtreeDeadlineExpired)
      else if !Room(l.attempts, l.attempts.Keys, l.policy, q) then Denied(AggregateExceeded)
      else if SubtreeFull(l, q) then Denied(SubtreeExceeded)
      else if !Room(l.attempts, {}, own, q) then Denied(AttemptExceedsOwnLimits)
      else Attempted(Attempt(q.id, q.parent, Reserved, DepthUnder(l, q.parent)))
  }

  lemma OverdrawnReason(l: Ledger, q: Request, child: Option<Limits>)
    requires Forest(l.attempts) && q.id !in l.attempts && (q.parent.Some? ==> q.parent.value in l.attempts)
    ensures OverdrawnBy(l, q, child) ==
      if !Room(l.attempts, l.attempts.Keys, l.policy, q) then Some(AggregateExceeded)
      else if SubtreeFull(l, q) then Some(SubtreeExceeded)
      else if !Room(l.attempts, {}, Effective(l, q.parent, child), q) then Some(AttemptExceedsOwnLimits)
      else None
  {
    hide Within, Room, Forest, Above;
    var t, u := l.attempts, Admitted(l, q, child).attempts;
    InsertIsForest(l, q, child);
    AdmittedWithin(l, q, child, t.Keys, l.policy);
    assert u.Keys == t.Keys + {q.id};
    AdmittedWithin(l, q, child, {}, Effective(l, q.parent, child));
    assert {} + {q.id} == {q.id};
    forall a | a in t && Above(t, q.parent, a)
      ensures Within(u, Subtree(u, a), t[a].limits) <==> Room(t, Subtree(t, a), t[a].limits, q)
    {
      InsertedSubtree(t, u, q.id, a);
      AdmittedWithin(l, q, child, Subtree(t, a), t[a].limits);
    }
  }

  lemma ReserveAnswers(l: Ledger, q: Request, child: Option<Limits>, now: nat)
    requires Inv(l) && l.lastSeen <= now && q.id !in l.attempts
    ensures Forest(l.attempts)
    ensures Step(l, Reserve(q, child), now).1 == ReserveAnswer(l, q, child, now)
  {
    hide Caps, Receipts, Grants, Narrow, Fanout, Shallow, ReleasedClosed, Shaped, OverdrawnBy, TooDeepFor,
      ReleasedAbove, LateAbove, Children, Forest, DepthFits, Room, SubtreeFull;
    InvPieces(l);
    var k := l.(lastSeen := now);
    TickKeepsInv(l, now);
    if q.parent.Some? ==> q.parent.value in l.attempts {
      TooDeepIsDepth(k, q, child);
      OverdrawnReason(k, q, child);
      ClockIsNoRoom(l, q, now);
    }
    match q.parent {
      case None =>
        NothingAbove(k.attempts, Elapsed(k));
      case Some(p) =>
        if p in l.attempts && !l.cancelled {
          ReleasedWalkIsParentCheck(k, p);
          DeadlineWalkIsParentCheck(k, p);
        }
    }
  }

  lemma ClockIsNoRoom(l: Ledger, q: Request, now: nat)
    requires Forest(l.attempts) && (q.parent.Some? ==> q.parent.value in l.attempts)
    ensures SubtreeFull(l.(lastSeen := now), q) == SubtreeFull(l, q)
    ensures DepthFits(l.(lastSeen := now), q.parent) == DepthFits(l, q.parent)
  {
  }

  // ---------------------------------------------------------------- release

  /** The answer to a release. */
  ghost function ReleaseAnswer(l: Ledger, x: Id): Reply
    requires Forest(l.attempts)
  {
    if x !in l.attempts || (l.attempts[x].state != Reserved && l.attempts[x].state != Released) then
      Denied(MayBeInFlight)
    else if exists y :: y in l.attempts && y != x && Descends(l.attempts, y, x) && l.attempts[y].state != Released then
      Denied(LiveDescendants)
    else Attempted(Attempt(x, l.attempts[x].request.parent, Released, l.attempts[x].depth))
  }

  lemma ReleaseAnswers(l: Ledger, x: Id, now: nat)
    requires Inv(l) && l.lastSeen <= now
    ensures Forest(l.attempts)
    ensures Step(l, Release(x), now).1 == ReleaseAnswer(l, x)
  {
    hide Caps, Receipts, Grants, Narrow, Fanout, Shallow, ReleasedClosed, Shaped;
    if x in l.attempts {
      IdIsOwn(l.attempts, x);
    }
  }

  // ---------------------------------------------------------------- reconcile

  /** What a report says against what is known already. */
  predicate Against(known: Option<nat>, reported: Option<nat>) {
    known.Some? && (reported.None? || reported.value != known.value)
  }

  /** The answer to a reconciliation. */
  ghost function ReconcileAnswer(l: Ledger, r: Receipt, establishes: Option<Claim>): Reply {
    var stored := r.id in l.receipts;
    if stored && l.receipts[r.id] != r then Denied(ConflictingReceipt)
    else if r.attempt !in l.attempts then Denied(AttemptNotFound)
    else
      var row, id := l.attempts[r.attempt], if establishes.Some? then establishes.value.receipt else r.id;
      var same := establishes.Some? && id in l.prerequisites && l.prerequisites[id].source == r.attempt
        && l.prerequisites[id].payload == establishes.value.payload;
      if stored && establishes.Some? && !same then Denied(DuplicateCannotEstablish)
      else if stored then Attempted(Attempt(r.attempt, row.request.parent, row.state, row.depth))
      else if row.state == Reserved || row.state == Settled || row.state == Released then Denied(ConflictingTerminal)
      else if row.state == UsageUnknown
        && (row.outcome != Some(r.outcome) || Against(row.tokens, r.tokens) || Against(row.cost, r.cost)
            || Against(row.bytes, r.bytes)) then Denied(ConflictingRevision)
      else if r.bytes.Some? && r.bytes.value > row.request.bytes then Denied(OutputExceedsReservation)
      else if establishes.Some? && id in l.prerequisites && !same then Denied(ConflictingPrerequisite)
      else if establishes.Some? && id !in l.prerequisites
        && (exists p :: p in l.prerequisites && l.prerequisites[p].source == r.attempt) then
        Denied(PrerequisiteAlreadyEstablished)
      else
        Attempted(Attempt(r.attempt, row.request.parent,
          if r.tokens.Some? && r.cost.Some? && r.bytes.Some? then Settled else UsageUnknown, row.depth))
  }

  lemma ReconcileAnswers(l: Ledger, r: Receipt, establishes: Option<Claim>, now: nat)
    requires Inv(l) && l.lastSeen <= now && WellFormed(Reconcile(r, establishes))
    ensures Step(l, Reconcile(r, establishes), now).1 == ReconcileAnswer(l, r, establishes)
  {
    hide Caps, Receipts, Grants, Narrow, Fanout, Shallow, ReleasedClosed, Shaped;
    if r.attempt in l.attempts {
      IdIsOwn(l.attempts, r.attempt);
    }
  }

  // ---------------------------------------------------------------- the rest

  /** Lookups, marking uncertain and reports refuse for one reason each. */
  lemma OtherAnswers(l: Ledger, op: Op, now: nat)
    requires Inv(l) && l.lastSeen <= now && Step(l, op, now).1.Denied?
    ensures op.GetAttempt? || op.CancellationReport? || op.RemainingElapsed? ==>
      Step(l, op, now).1 == Denied(AttemptNotFound)
    ensures op.GetIntent? ==> Step(l, op, now).1 == Denied(IntentNotFound)
    ensures op.MarkUncertain? ==> Step(l, op, now).1 == Denied(NoDispatchToMark)
    ensures !op.Cancel? && !op.TakeSnapshot? && !op.Reopen?
  {
    hide Caps, Receipts, Grants, Narrow, Fanout, Shallow, ReleasedClosed, Shaped, ReserveAction, DispatchAction,
      ReconcileAction, ReleaseAction, SnapshotOf, ChainRemaining, CancelTable, RecoverTable;
  }
}
