/** The ledger as a store updated in place: one transaction per call, with a savepoint that refusals roll back to. */
module AssessmentLedger {
  import opened Common
  import opened BudgetTypes
  import opened AttemptForest
  import opened Sums
  import opened LedgerSpec
  import opened LedgerInvariant
  import opened LedgerRuns
  import opened LedgerLoops

  /** What a savepoint remembers: everything but the clock reading. */
  datatype Savepoint = Savepoint(
    cancelled: bool,
    attempts: Table,
    receipts: map<Id, Receipt>,
    prerequisites: map<Id, Prerequisite>,
    approvals: map<Id, Id>,
    intents: map<Id, Intent>)

  /** The two updates of a cancellation. */
  function RequestStop(t: Table): Table {
    map x | x in t :: if t[x].state.Active() then t[x].(cancelRequested := true) else t[x]
  }

  function ReleaseReserved(t: Table): Table {
    map x | x in t :: if t[x].state.Reserved? then t[x].(state := Released) else t[x]
  }

  lemma CancelInTwoUpdates(t: Table)
    ensures ReleaseReserved(RequestStop(t)) == CancelTable(t)
  {
  }

  class AssessmentBudgetLedger {
    const policy: Limits
    const terms: Payload
    const started: nat
    var lastSeen: nat
    var cancelled: bool
    var attempts: Table
    var receipts: map<Id, Receipt>
    var prerequisites: map<Id, Prerequisite>
    var approvals: map<Id, Id>
    var intents: map<Id, Intent>

    ghost function State(): Ledger
      reads this
    {
      Ledger(policy, terms, started, lastSeen, cancelled, attempts, receipts, prerequisites, approvals, intents)
    }

    constructor (policy: Policy, now: nat)
      ensures State() == Fresh(policy, now)
      ensures Inv(State())
    {
      this.policy, terms := policy.limits, policy.terms;
      started, lastSeen, cancelled := now, now, false;
      attempts, receipts, prerequisites, approvals, intents := map[], map[], map[], map[], map[];
      new;
      FreshInv(policy, now);
    }

    function Save(): Savepoint
      reads this
    {
      Savepoint(cancelled, attempts, receipts, prerequisites, approvals, intents)
    }

    method Rollback(s: Savepoint)
      modifies this
      ensures Save() == s && lastSeen == old(lastSeen)
    {
      cancelled, attempts, receipts := s.cancelled, s.attempts, s.receipts;
      prerequisites, approvals, intents := s.prerequisites, s.approvals, s.intents;
    }

    // -------------------------------------------------------------- reserve

    method Reserve(q: Request, child: Option<Limits>, now: nat) returns (reply: Reply)
      requires Inv(State())
      modifies this
      ensures Inv(State())
      ensures (State(), reply) == Step(old(State()), Op.Reserve(q, child), now)
    {
      hide Inv, Forest, ReserveDenial;
      StepKeepsInv(State(), Op.Reserve(q, child), now);
      InvIsForest(State());
      if now < lastSeen {
        return Faulted(ClockMovedBackward);
      }
      lastSeen := now;
      var savepoint := Save();
      reply := ReserveInPlace(q, child);
      if !reply.Accepted() {
        Rollback(savepoint);
      }
    }

    /** May leave the new row behind when it refuses; the transaction rolls it back. */
    method ReserveInPlace(q: Request, child: Option<Limits>) returns (reply: Reply)
      requires Forest(attempts)
      modifies this`attempts
      ensures reply == old(ReserveAction(State(), q, child)).1
      ensures reply.Accepted() ==> State() == old(ReserveAction(State(), q, child)).0
    {
      hide ReserveDenial, OverdrawnBy, Forest, NewRow, Within;
      if q.id in attempts {
        var row := attempts[q.id];
        ParentStored(attempts, q.id);
        var inherited := if row.request.parent.None? then policy else attempts[row.request.parent.value].limits;
        if row.request != q || row.limits != (if child.Some? then child.value else inherited) {
          return Denied(ConflictingAttempt);
        }
        return Attempted(AttemptOf(row));
      }
      var why, row, ancestors := CheckRequest(q, child);
      if why.Some? {
        return Denied(why.value);
      }
      ghost var before := State();
      InsertIsForest(before, q, child);
      attempts := attempts[q.id := row];
      OverdrawnIs(before, q, child, ancestors);
      var fits := RowsWithin(attempts, attempts.Keys, policy);
      if !fits {
        return Denied(AggregateExceeded);
      }
      var overdrawn := AnyOverdrawn(attempts, ancestors);
      if overdrawn {
        return Denied(SubtreeExceeded);
      }
      var own := RowsWithin(attempts, {q.id}, row.limits);
      if !own {
        return Denied(AttemptExceedsOwnLimits);
      }
      return Attempted(AttemptOf(row));
    }

    /** The checks before the row is inserted; when they pass, the row to insert and the list of its ancestors. */
    method CheckRequest(q: Request, child: Option<Limits>)
      returns (why: Option<Denial>, row: Row, ancestors: seq<Id>)
      requires Forest(attempts) && q.id !in attempts
      ensures why.Some? ==> why == ReserveDenial(State(), q, child)
      ensures why.None? ==>
        && (q.parent.Some? ==> q.parent.value in attempts)
        && ReserveDenial(State(), q, child) == OverdrawnBy(State(), q, child)
        && row == NewRow(State(), q, child)
        && forall a :: a in ancestors <==> a in attempts && Above(attempts, q.parent, a)
    {
      hide ReleasedAbove, TooDeepFor, LateAbove, OverdrawnBy, Children, Forest, NewRow, Above;
      ancestors := [];
      row := Row(q, policy, 0, Reserved, None, None, None, None, false);
      if cancelled {
        return Some(EngagementCancelled), row, ancestors;
      }
      var elapsed := lastSeen - started;
      if elapsed > policy.maxElapsed {
        return Some(DeadlineExpired), row, ancestors;
      }
      var inherited := policy;
      if q.parent.Some? {
        if q.parent.value !in attempts {
          return Some(ParentUnavailable), row, ancestors;
        }
        var walked := Ancestors(attempts, q.parent.value);
        if walked.None? {
          return Some(ParentUnavailable), row, ancestors;
        }
        ancestors := walked.value;
        inherited := attempts[q.parent.value].limits;
        row := row.(depth := attempts[q.parent.value].depth + 1);
      }
      NoParentNothingAbove(attempts, q.parent);
      row := row.(limits := if child.Some? then child.value else inherited);
      NewRowIs(State(), q, child, row);
      if !row.limits.IsWithin(inherited) {
        return Some(LimitsWidenParent), row, ancestors;
      }
      if q.parent.Some? {
        var siblings := set x | x in attempts && attempts[x].request.parent == q.parent;
        SiblingsAreChildren(attempts, q.parent.value);
        if |siblings| >= inherited.maxChildren {
          return Some(FanoutReached), row, ancestors;
        }
      }
      var tooDeep := AnyTooDeep(attempts, ancestors, row.depth);
      var late := AnyLate(attempts, ancestors, elapsed);
      AncestorListDecides(attempts, q.parent, ancestors, row.depth, elapsed);
      if row.depth > policy.maxDepth || tooDeep {
        return Some(DepthReached), row, ancestors;
      }
      if late {
        return Some(SubtreeDeadlineExpired), row, ancestors;
      }
      return None, row, ancestors;
    }

    method GetAttempt(x: Id, now: nat) returns (reply: Reply)
      requires Inv(State())
      modifies this
      ensures Inv(State())
      ensures (State(), reply) == Step(old(State()), Op.GetAttempt(x), now)
    {
      hide Inv, Forest;
      StepKeepsInv(State(), Op.GetAttempt(x), now);
      InvIsForest(State());
      if now < lastSeen {
        return Faulted(ClockMovedBackward);
      }
      lastSeen := now;
      if x !in attempts {
        return Denied(AttemptNotFound);
      }
      return Attempted(AttemptOf(attempts[x]));
    }

    method GetDispatchIntent(x: Id, now: nat) returns (reply: Reply)
      requires Inv(State())
      modifies this
      ensures Inv(State())
      ensures (State(), reply) == Step(old(State()), Op.GetIntent(x), now)
    {
      hide Inv, Forest;
      StepKeepsInv(State(), Op.GetIntent(x), now);
      InvIsForest(State());
      if now < lastSeen {
        return Faulted(ClockMovedBackward);
      }
      lastSeen := now;
      if x !in intents {
        return Denied(IntentNotFound);
      }
      return Intended(intents[x]);
    }

    // -------------------------------------------------------------- dispatch

    method MarkDispatched(x: Id, approval: Option<Approval>, claim: Option<Claim>, now: nat) returns (reply: Reply)
      requires Inv(State())
      modifies this
      ensures Inv(State())
      ensures (State(), reply) == Step(old(State()), Op.MarkDispatched(x, approval, claim), now)
    {
      hide Inv, Forest, DispatchDenial;
      StepKeepsInv(State(), Op.MarkDispatched(x, approval, claim), now);
      InvIsForest(State());
      if !WellFormed(Op.MarkDispatched(x, approval, claim)) {
        return Invalid;
      }
      if now < lastSeen {
        return Faulted(ClockMovedBackward);
      }
      lastSeen := now;
      var savepoint := Save();
      reply := DispatchInPlace(x, approval, claim);
      if !reply.Accepted() {
        Rollback(savepoint);
      }
    }

    /** Consumes the prerequisite before it looks at the approval; a refusal there is rolled back. */
    method DispatchInPlace(x: Id, approval: Option<Approval>, claim: Option<Claim>) returns (reply: Reply)
      requires Forest(attempts)
      modifies this`attempts, this`prerequisites, this`approvals, this`intents
      ensures reply == old(DispatchAction(State(), x, approval, claim)).1
      ensures reply.Accepted() ==> State() == old(DispatchAction(State(), x, approval, claim)).0
    {
      hide WalkDenial, Forest;
      if x !in attempts {
        return Denied(AttemptNotFound);
      }
      if cancelled {
        return Denied(EngagementCancelled);
      }
      var elapsed := lastSeen - started;
      if elapsed > policy.maxElapsed {
        return Denied(DeadlineExpired);
      }
      var row := attempts[x];
      if !row.state.Reserved? {
        return Denied(NotReserved);
      }
      var walk := DispatchWalk(attempts, x, elapsed);
      if walk.Some? {
        return Denied(walk.value);
      }
      if approval.Some? && !(approval.value.intent.issuedAt <= lastSeen < approval.value.intent.expiresAt) {
        return Denied(ApprovalNotValid);
      }
      if claim.Some? {
        var id := claim.value.receipt;
        if id !in prerequisites || prerequisites[id].payload != claim.value.payload {
          return Denied(PrerequisiteMismatch);
        }
        if prerequisites[id].consumedBy.Some? {
          return Denied(PrerequisiteConsumed);
        }
        prerequisites := prerequisites[id := prerequisites[id].(consumedBy := Some(x))];
      }
      if approval.Some? {
        if approval.value.receipt in approvals {
          return Denied(ApprovalReused);
        }
        if x in approvals.Values || x in intents {
          return Faulted(ConstraintViolated);
        }
        approvals := approvals[approval.value.receipt := x];
        intents := intents[x := approval.value.intent];
      }
      attempts := attempts[x := row.(state := Dispatched)];
      return Attempted(Attempt(row.request.id, row.request.parent, Dispatched, row.depth));
    }

    method MarkUncertain(x: Id, now: nat) returns (reply: Reply)
      requires Inv(State())
      modifies this
      ensures Inv(State())
      ensures (State(), reply) == Step(old(State()), Op.MarkUncertain(x), now)
    {
      hide Inv, Forest;
      StepKeepsInv(State(), Op.MarkUncertain(x), now);
      InvIsForest(State());
      if now < lastSeen {
        return Faulted(ClockMovedBackward);
      }
      lastSeen := now;
      if x !in attempts || !(attempts[x].state.Dispatched? || attempts[x].state.Uncertain?) {
        return Denied(NoDispatchToMark);
      }
      attempts := attempts[x := attempts[x].(state := Uncertain)];
      return Attempted(AttemptOf(attempts[x]));
    }

    method ReleaseUndispatched(x: Id, now: nat) returns (reply: Reply)
      requires Inv(State())
      modifies this
      ensures Inv(State())
      ensures (State(), reply) == Step(old(State()), Op.Release(x), now)
    {
      hide Inv, Forest, HasLiveDescendant;
      StepKeepsInv(State(), Op.Release(x), now);
      InvIsForest(State());
      if now < lastSeen {
        return Faulted(ClockMovedBackward);
      }
      lastSeen := now;
      if x !in attempts || !(attempts[x].state.Reserved? || attempts[x].state.Released?) {
        return Denied(MayBeInFlight);
      }
      var live := AnyLiveDescendant(attempts, x);
      if live {
        return Denied(LiveDescendants);
      }
      attempts := attempts[x := attempts[x].(state := Released)];
      return Attempted(AttemptOf(attempts[x]));
    }

    // -------------------------------------------------------------- reconcile

    method Reconcile(r: Receipt, establishes: Option<Claim>, now: nat) returns (reply: Reply)
      requires Inv(State())
      modifies this
      ensures Inv(State())
      ensures (State(), reply) == Step(old(State()), Op.Reconcile(r, establishes), now)
    {
      hide Inv, Forest, ReconcileAction;
      StepKeepsInv(State(), Op.Reconcile(r, establishes), now);
      InvIsForest(State());
      if establishes.Some? && !r.outcome.Completed? {
        return Invalid;
      }
      if now < lastSeen {
        return Faulted(ClockMovedBackward);
      }
      lastSeen := now;
      reply := ReconcileInPlace(r, establishes);
    }

    method ReconcileInPlace(r: Receipt, establishes: Option<Claim>) returns (reply: Reply)
      modifies this`attempts, this`prerequisites, this`receipts
      ensures (State(), reply) == old(ReconcileAction(State(), r, establishes))
    {
      hide HasPrerequisite, Matches, ConflictingUpdate;
      if r.id in receipts && receipts[r.id] != r {
        return Denied(ConflictingReceipt);
      }
      if r.attempt !in attempts {
        return Denied(AttemptNotFound);
      }
      var row := attempts[r.attempt];
      if r.id in receipts {
        if establishes.Some? && !Matches(prerequisites, establishes.value, r.attempt) {
          return Denied(DuplicateCannotEstablish);
        }
        return Attempted(AttemptOf(row));
      }
      if !(row.state.Dispatched? || row.state.Uncertain? || row.state.UsageUnknown?) {
        return Denied(ConflictingTerminal);
      }
      if row.state.UsageUnknown? && ConflictingUpdate(row, r) {
        return Denied(ConflictingRevision);
      }
      if r.bytes.Some? && r.bytes.value > row.request.bytes {
        return Denied(OutputExceedsReservation);
      }
      if establishes.Some? {
        var id := establishes.value.receipt;
        if id in prerequisites {
          if !Matches(prerequisites, establishes.value, r.attempt) {
            return Denied(ConflictingPrerequisite);
          }
        } else {
          if HasPrerequisite(prerequisites, r.attempt) {
            return Denied(PrerequisiteAlreadyEstablished);
          }
          prerequisites := prerequisites[id := Prerequisite(r.attempt, establishes.value.payload, None)];
        }
      }
      var known := r.tokens.Some? && r.cost.Some? && r.bytes.Some?;
      var state := if known then Settled else UsageUnknown;
      attempts := attempts[r.attempt :=
        row.(state := state, tokens := r.tokens, cost := r.cost, bytes := r.bytes, outcome := Some(r.outcome))];
      receipts := receipts[r.id := r];
      return Attempted(Attempt(row.request.id, row.request.parent, state, row.depth));
    }

    /** Reads only: neither the tables nor the clock change. None stands for arguments that are refused outright. */
    method ReconciliationIsDurable(r: Receipt, establishes: Option<Claim>) returns (durable: Option<bool>)
      ensures durable.None? <==> !WellFormed(Op.Reconcile(r, establishes))
      ensures durable.Some? ==> durable.value == IsDurable(State(), r, establishes)
    {
      if establishes.Some? && !r.outcome.Completed? {
        return None;
      }
      if r.id !in receipts || receipts[r.id] != r || r.attempt !in attempts {
        return Some(false);
      }
      var row := attempts[r.attempt];
      var expected := if r.FullyKnown() then Settled else UsageUnknown;
      if row.state != expected || row.tokens != r.tokens || row.cost != r.cost || row.bytes != r.bytes
         || row.outcome != Some(r.outcome)
      {
        return Some(false);
      }
      if establishes.Some? {
        var id := establishes.value.receipt;
        return Some(
          && id in prerequisites
          && prerequisites[id].source == r.attempt
          && prerequisites[id].payload == establishes.value.payload
          && prerequisites[id].consumedBy.None?);
      }
      return Some(!HasPrerequisite(prerequisites, r.attempt));
    }

    // -------------------------------------------------------------- cancel, reports, restart

    method CancelEngagement(now: nat) returns (reply: Reply)
      requires Inv(State())
      modifies this
      ensures Inv(State())
      ensures (State(), reply) == Step(old(State()), Op.Cancel, now)
    {
      hide Inv, Forest, CancelTable, RequestStop, ReleaseReserved;
      StepKeepsInv(State(), Op.Cancel, now);
      InvIsForest(State());
      if now < lastSeen {
        return Faulted(ClockMovedBackward);
      }
      lastSeen := now;
      cancelled := true;
      attempts := RequestStop(attempts);
      attempts := ReleaseReserved(attempts);
      CancelInTwoUpdates(old(attempts));
      return Done;
    }

    method RequestReport(x: Id, now: nat) returns (reply: Reply)
      requires Inv(State())
      modifies this
      ensures Inv(State())
      ensures (State(), reply) == Step(old(State()), Op.CancellationReport(x), now)
    {
      hide Inv, Forest;
      StepKeepsInv(State(), Op.CancellationReport(x), now);
      InvIsForest(State());
      if now < lastSeen {
        return Faulted(ClockMovedBackward);
      }
      lastSeen := now;
      if x !in attempts {
        return Denied(AttemptNotFound);
      }
      return Reported(ReportOf(attempts[x]));
    }

    method TakeSnapshot(now: nat) returns (reply: Reply)
      requires Inv(State())
      modifies this
      ensures Inv(State())
      ensures (State(), reply) == Step(old(State()), Op.TakeSnapshot, now)
    {
      hide Inv, Forest;
      StepKeepsInv(State(), Op.TakeSnapshot, now);
      InvIsForest(State());
      if now < lastSeen {
        return Faulted(ClockMovedBackward);
      }
      lastSeen := now;
      var s := ChargedSnapshot(attempts, attempts.Keys);
      WithinByMeter(attempts, attempts.Keys, policy);
      return Counted(s.(overBudget := !SnapshotWithin(s, policy)));
    }

    method RemainingElapsedMs(x: Option<Id>, now: nat) returns (reply: Reply)
      requires Inv(State())
      modifies this
      ensures Inv(State())
      ensures (State(), reply) == Step(old(State()), Op.RemainingElapsed(x), now)
    {
      hide Inv, Forest, ChainRemaining;
      StepKeepsInv(State(), Op.RemainingElapsed(x), now);
      InvIsForest(State());
      if now < lastSeen {
        return Faulted(ClockMovedBackward);
      }
      lastSeen := now;
      var elapsed := lastSeen - started;
      var remaining := policy.maxElapsed - elapsed;
      if x.Some? {
        if x.value !in attempts {
          return Denied(AttemptNotFound);
        }
        remaining := LeastRemaining(attempts, x.value, elapsed, remaining);
      }
      return Remaining(AtLeastZero(remaining));
    }

    method Reopen(expected: Policy, now: nat) returns (reply: Reply)
      requires Inv(State())
      modifies this
      ensures Inv(State())
      ensures (State(), reply) == Step(old(State()), Op.Reopen(expected), now)
    {
      hide Inv, Forest, RecoverTable;
      StepKeepsInv(State(), Op.Reopen(expected), now);
      InvIsForest(State());
      if expected != Policy(policy, terms) {
        return Faulted(PolicyMismatch);
      }
      if now < lastSeen {
        return Faulted(ClockMovedBackward);
      }
      lastSeen := now;
      attempts := RecoverTable(attempts);
      return Done;
    }
  }

  // ---------------------------------------------------------------- the fixture dispatcher

  /**
   Reserves, marks dispatched, then calls back once; the callback's answer is a receipt, or None if it raised.
   The callback is only called for an attempt that was never dispatched before and has been dispatched now, and
   after it the attempt is settled, of unknown usage, or uncertain.
   */
  method DispatchFixture(
    ledger: AssessmentBudgetLedger, q: Request, answer: Option<Receipt>, clock: seq<nat>)
    returns (reply: Reply, called: bool)
    requires Inv(ledger.State()) && |clock| == 4
    modifies ledger
    ensures Inv(ledger.State())
    ensures Progress(old(ledger.State()), ledger.State())
    ensures called ==>
      !WasDispatched(old(ledger.State()).attempts, q.id) && WasDispatched(ledger.State().attempts, q.id)
    ensures !called ==> !reply.Accepted()
    ensures called && reply.Accepted() ==>
      && answer.Some? && answer.value.attempt == q.id
      && answer.value.id in ledger.receipts && ledger.receipts[answer.value.id] == answer.value
    ensures called && !reply.Accepted() && clock[2] <= clock[3] && clock[1] <= clock[2] ==>
      ledger.attempts[q.id].state.Uncertain?
  {
    hide Inv, Forest, Step, Progress, WasDispatched;
    ghost var s0 := ledger.State();
    reply := ledger.Reserve(q, None, clock[0]);
    ghost var s1 := ledger.State();
    StepProgress(s0, Op.Reserve(q, None), clock[0]);
    if !reply.Accepted() {
      return reply, false;
    }
    reply := ledger.MarkDispatched(q.id, None, None, clock[1]);
    ghost var s2 := ledger.State();
    StepProgress(s1, Op.MarkDispatched(q.id, None, None), clock[1]);
    ProgressTransitive(s0, s1, s2);
    if !reply.Accepted() {
      return reply, false;
    }
    FixtureDispatched(s0, s1, q, clock[1]);
    called := true;
    var answered := answer.Some? && answer.value.attempt == q.id;
    if answered {
      reply := ledger.Reconcile(answer.value, None, clock[2]);
      ghost var s3 := ledger.State();
      StepProgress(s2, Op.Reconcile(answer.value, None), clock[2]);
      ProgressTransitive(s0, s2, s3);
      FixtureReconciled(s2, answer.value, clock[2]);
      DispatchStays(s2, s3, q.id);
      if reply.Accepted() {
        return reply, called;
      }
    } else {
      reply := if answer.Some? then Denied(ReceiptMismatch) else Invalid;
    }
    ghost var s4 := ledger.State();
    var marked := ledger.MarkUncertain(q.id, clock[3]);
    StepProgress(s4, Op.MarkUncertain(q.id), clock[3]);
    ProgressTransitive(s0, s4, ledger.State());
    DispatchStays(s4, ledger.State(), q.id);
    FixtureUncertain(s4, q.id, clock[3]);
  }

  lemma FixtureDispatched(before: Ledger, l: Ledger, q: Request, now: nat)
    requires Inv(before) && Inv(l) && Progress(before, l)
    requires Step(l, Op.MarkDispatched(q.id, None, None), now).1.Accepted()
    ensures
      var k := Step(l, Op.MarkDispatched(q.id, None, None), now).0;
      && !WasDispatched(before.attempts, q.id) && WasDispatched(k.attempts, q.id)
      && q.id in k.attempts && k.attempts[q.id].state.Dispatched? && k.lastSeen == now
  {
    hide Caps, Receipts, Grants, Narrow, Fanout, Shallow, ReleasedClosed, Shaped, DispatchDenial;
    EvolutionKeepsUse(before.attempts, l.attempts);
    AcceptedDispatch(l.(lastSeen := now), q.id, None, None);
  }

  lemma FixtureReconciled(l: Ledger, r: Receipt, now: nat)
    requires Inv(l) && r.attempt in l.attempts && l.attempts[r.attempt].state.Dispatched?
    ensures
      var (k, reply) := Step(l, Op.Reconcile(r, None), now);
      if reply.Accepted() then r.id in k.receipts && k.receipts[r.id] == r
      else
        && r.attempt in k.attempts && k.attempts[r.attempt].state.Dispatched?
        && (l.lastSeen <= now ==> k.lastSeen == now)
  {
    hide Caps, Receipts, Grants, Narrow, Fanout, Shallow, ReleasedClosed, Shaped, ReconcileDenial;
  }

  lemma FixtureUncertain(l: Ledger, x: Id, now: nat)
    requires Inv(l) && x in l.attempts && l.attempts[x].state.Dispatched?
    ensures x in Step(l, Op.MarkUncertain(x), now).0.attempts
    ensures l.lastSeen <= now ==> Step(l, Op.MarkUncertain(x), now).0.attempts[x].state.Uncertain?
  {
    hide Caps, Receipts, Grants, Narrow, Fanout, Shallow, ReleasedClosed, Shaped;
  }

  lemma DispatchStays(l: Ledger, k: Ledger, x: Id)
    requires Progress(l, k) && WasDispatched(l.attempts, x)
    ensures WasDispatched(k.attempts, x)
  {
    EvolutionKeepsUse(l.attempts, k.attempts);
  }

  // ---------------------------------------------------------------- proof steps of the reservation

  lemma NoParentNothingAbove(t: Table, parent: Option<Id>)
    requires Forest(t) && (parent.Some? ==> parent.value in t)
    ensures parent.None? ==> !ReleasedAbove(t, parent) && forall a :: a in t ==> !Above(t, parent, a)
  {
  }

  lemma SiblingsAreChildren(t: Table, p: Id)
    ensures (set x | x in t && t[x].request.parent == Some(p)) == Children(t, p)
  {
  }

  lemma NewRowIs(l: Ledger, q: Request, child: Option<Limits>, row: Row)
    requires q.parent.Some? ==> q.parent.value in l.attempts
    requires row == Row(
      q,
      if child.Some? then child.value else if q.parent.Some? then l.attempts[q.parent.value].limits else l.policy,
      if q.parent.Some? then l.attempts[q.parent.value].depth + 1 else 0,
      Reserved, None, None, None, None, false)
    ensures row == NewRow(l, q, child)
  {
  }

  lemma AncestorListDecides(t: Table, parent: Option<Id>, ancestors: seq<Id>, depth: nat, elapsed: int)
    requires Forest(t) && (parent.Some? ==> parent.value in t)
    requires forall a :: a in ancestors <==> a in t && Above(t, parent, a)
    ensures TooDeepFor(t, parent, depth) <==>
      exists a :: a in ancestors && depth - t[a].depth > t[a].limits.maxDepth
    ensures LateAbove(t, parent, elapsed) <==> exists a :: a in ancestors && elapsed > t[a].limits.maxElapsed
  {
  }

  lemma OverdrawnIs(l: Ledger, q: Request, child: Option<Limits>, ancestors: seq<Id>)
    requires Forest(l.attempts) && q.id !in l.attempts && (q.parent.Some? ==> q.parent.value in l.attempts)
    requires forall a :: a in ancestors <==> a in l.attempts && Above(l.attempts, q.parent, a)
    ensures
      var u := l.attempts[q.id := NewRow(l, q, child)];
      && Forest(u)
      && OverdrawnBy(l, q, child) ==
         if !Within(u, u.Keys, l.policy) then Some(AggregateExceeded)
         else if exists a :: a in ancestors && !Within(u, Subtree(u, a), u[a].limits) then Some(SubtreeExceeded)
         else if !Within(u, {q.id}, u[q.id].limits) then Some(AttemptExceedsOwnLimits)
         else None
  {
    InsertIsForest(l, q, child);
    hide Within;
    var t, u := l.attempts, l.attempts[q.id := NewRow(l, q, child)];
    if a :| a in ancestors && !Within(u, Subtree(u, a), u[a].limits) {
      assert a in t && Above(t, q.parent, a) && !Within(u, Subtree(u, a), t[a].limits);
    }
  }
}
