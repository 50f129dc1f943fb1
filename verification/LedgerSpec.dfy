/** Every public operation of the ledger as one atomic step on the tables. */
module LedgerSpec {
  import opened Common
  import opened BudgetTypes
  import opened AttemptForest
  import opened Sums

  function PolicyOf(l: Ledger): Policy {
    Policy(l.policy, l.terms)
  }

  function Elapsed(l: Ledger): int {
    l.lastSeen - l.started
  }

  function AttemptOf(row: Row): Attempt {
    Attempt(row.request.id, row.request.parent, row.state, row.depth)
  }

  function WithState(row: Row, state: State): Row {
    row.(state := state)
  }

  // ---------------------------------------------------------------- reserve

  function Inherited(l: Ledger, parent: Option<Id>): Limits
    requires parent.Some? ==> parent.value in l.attempts
  {
    match parent
    case None => l.policy
    case Some(p) => l.attempts[p].limits
  }

  function Effective(l: Ledger, parent: Option<Id>, child: Option<Limits>): Limits
    requires parent.Some? ==> parent.value in l.attempts
  {
    match child
    case Some(own) => own
    case None => Inherited(l, parent)
  }

  function NewRow(l: Ledger, q: Request, child: Option<Limits>): Row
    requires q.parent.Some? ==> q.parent.value in l.attempts
  {
    var depth := match q.parent case None => 0 case Some(p) => l.attempts[p].depth + 1;
    Row(q, Effective(l, q.parent, child), depth, Reserved, None, None, None, None, false)
  }

  /** a is an ancestor of an attempt whose parent is given. */
  ghost predicate Above(t: Table, parent: Option<Id>, a: Id)
    requires Forest(t) && (parent.Some? ==> parent.value in t)
  {
    parent.Some? && Descends(t, parent.value, a)
  }

  ghost predicate ReleasedAbove(t: Table, parent: Option<Id>)
    requires Forest(t) && (parent.Some? ==> parent.value in t)
  {
    exists a :: a in t && Above(t, parent, a) && t[a].state.Released?
  }

  ghost predicate TooDeepFor(t: Table, parent: Option<Id>, depth: nat)
    requires Forest(t) && (parent.Some? ==> parent.value in t)
  {
    exists a :: a in t && Above(t, parent, a) && depth - t[a].depth > t[a].limits.maxDepth
  }

  ghost predicate LateAbove(t: Table, parent: Option<Id>, elapsed: int)
    requires Forest(t) && (parent.Some? ==> parent.value in t)
  {
    exists a :: a in t && Above(t, parent, a) && elapsed > t[a].limits.maxElapsed
  }

  lemma InsertIsForest(l: Ledger, q: Request, child: Option<Limits>)
    requires Forest(l.attempts) && q.id !in l.attempts
    requires q.parent.Some? ==> q.parent.value in l.attempts
    ensures Inserts(l.attempts, l.attempts[q.id := NewRow(l, q, child)], q.id)
    ensures forall a :: a in l.attempts ==>
      Descends(l.attempts[q.id := NewRow(l, q, child)], q.id, a) == Above(l.attempts, q.parent, a)
  {
    var t, u := l.attempts, l.attempts[q.id := NewRow(l, q, child)];
    InsertLeaf(t, q.id, NewRow(l, q, child));
    forall a | a in t ensures Descends(u, q.id, a) == Above(t, q.parent, a) {
      if q.parent.Some? {
        InsertKeepsDescends(t, u, q.id, q.parent.value, a);
      }
    }
  }

  /** The admission checks that are made once the row is in the table. */
  ghost function OverdrawnBy(l: Ledger, q: Request, child: Option<Limits>): Option<Denial>
    requires Forest(l.attempts) && q.id !in l.attempts
    requires q.parent.Some? ==> q.parent.value in l.attempts
  {
    var t := l.attempts;
    var u := t[q.id := NewRow(l, q, child)];
    InsertIsForest(l, q, child);
    if !Within(u, u.Keys, l.policy) then
      Some(AggregateExceeded)
    else if exists a :: a in t && Above(t, q.parent, a) && !Within(u, Subtree(u, a), t[a].limits) then
      Some(SubtreeExceeded)
    else if !Within(u, {q.id}, u[q.id].limits) then
      Some(AttemptExceedsOwnLimits)
    else
      None
  }

  ghost function ReserveDenial(l: Ledger, q: Request, child: Option<Limits>): (d: Option<Denial>)
    requires Forest(l.attempts) && q.id !in l.attempts
    ensures d.None? ==> (q.parent.Some? ==> q.parent.value in l.attempts)
  {
    var t := l.attempts;
    if l.cancelled then Some(EngagementCancelled)
    else if Elapsed(l) > l.policy.maxElapsed then Some(DeadlineExpired)
    else if q.parent.Some? && q.parent.value !in t then Some(ParentUnavailable)
    else if ReleasedAbove(t, q.parent) then Some(ParentUnavailable)
    else
      var row := NewRow(l, q, child);
      if !row.limits.IsWithin(Inherited(l, q.parent)) then Some(LimitsWidenParent)
      else if q.parent.Some? && |Children(t, q.parent.value)| >= t[q.parent.value].limits.maxChildren then
        Some(FanoutReached)
      else if row.depth > l.policy.maxDepth || TooDeepFor(t, q.parent, row.depth) then Some(DepthReached)
      else if LateAbove(t, q.parent, Elapsed(l)) then Some(SubtreeDeadlineExpired)
      else OverdrawnBy(l, q, child)
  }

  ghost function ReserveAction(l: Ledger, q: Request, child: Option<Limits>): (Ledger, Reply)
    requires Forest(l.attempts)
  {
    var t := l.attempts;
    if q.id in t then
      if t[q.id].request == q && t[q.id].limits == Effective(l, t[q.id].request.parent, child) then
        (l, Attempted(AttemptOf(t[q.id])))
      else
        (l, Denied(ConflictingAttempt))
    else
      match ReserveDenial(l, q, child)
      case Some(why) => (l, Denied(why))
      case None =>
        var row := NewRow(l, q, child);
        (l.(attempts := t[q.id := row]), Attempted(AttemptOf(row)))
  }

  // ---------------------------------------------------------------- dispatch

  /** The first objection that the walk from an attempt to its root raises. */
  ghost function WalkDenial(t: Table, x: Id, elapsed: int): Option<Denial>
    requires Forest(t) && x in t
    decreases t[x].depth
  {
    if t[x].state.Released? then Some(AncestorUnavailable)
    else if elapsed > t[x].limits.maxElapsed then Some(SubtreeDeadlineExpired)
    else if t[x].request.parent.Some? then WalkDenial(t, t[x].request.parent.value, elapsed)
    else None
  }

  function ClaimDenial(l: Ledger, claim: Option<Claim>): Option<Denial> {
    match claim
    case None => None
    case Some(c) =>
      if c.receipt !in l.prerequisites || l.prerequisites[c.receipt].payload != c.payload then
        Some(PrerequisiteMismatch)
      else if l.prerequisites[c.receipt].consumedBy.Some? then
        Some(PrerequisiteConsumed)
      else
        None
  }

  ghost function DispatchDenial(l: Ledger, x: Id, approval: Option<Approval>, claim: Option<Claim>): (d: Option<Denial>)
    requires Forest(l.attempts)
    ensures d.None? ==> x in l.attempts
  {
    var t := l.attempts;
    if x !in t then Some(AttemptNotFound)
    else if l.cancelled then Some(EngagementCancelled)
    else if Elapsed(l) > l.policy.maxElapsed then Some(DeadlineExpired)
    else if !t[x].state.Reserved? then Some(NotReserved)
    else if WalkDenial(t, x, Elapsed(l)).Some? then WalkDenial(t, x, Elapsed(l))
    else if approval.Some? && !(approval.value.intent.issuedAt <= l.lastSeen < approval.value.intent.expiresAt) then
      Some(ApprovalNotValid)
    else if ClaimDenial(l, claim).Some? then ClaimDenial(l, claim)
    else if approval.Some? && approval.value.receipt in l.approvals then Some(ApprovalReused)
    else None
  }

  function Consume(ps: map<Id, Prerequisite>, claim: Option<Claim>, x: Id): map<Id, Prerequisite> {
    if claim.Some? && claim.value.receipt in ps
    then ps[claim.value.receipt := ps[claim.value.receipt].(consumedBy := Some(x))]
    else ps
  }

  /** The tables after an attempt was dispatched. */
  function Dispatch(l: Ledger, x: Id, approval: Option<Approval>, claim: Option<Claim>): Ledger
    requires x in l.attempts
  {
    l.(attempts := l.attempts[x := WithState(l.attempts[x], Dispatched)],
       prerequisites := Consume(l.prerequisites, claim, x),
       approvals := if approval.Some? then l.approvals[approval.value.receipt := x] else l.approvals,
       intents := if approval.Some? then l.intents[x := approval.value.intent] else l.intents)
  }

  ghost function DispatchAction(l: Ledger, x: Id, approval: Option<Approval>, claim: Option<Claim>): (Ledger, Reply)
    requires Forest(l.attempts)
  {
    match DispatchDenial(l, x, approval, claim)
    case Some(why) => (l, Denied(why))
    case None =>
      // The uniqueness constraints on the two insertions.
      if approval.Some? && (x in l.approvals.Values || x in l.intents) then
        (l, Faulted(ConstraintViolated))
      else
        var after := Dispatch(l, x, approval, claim);
        (after, Attempted(AttemptOf(after.attempts[x])))
  }

  ghost function UncertainAction(l: Ledger, x: Id): (Ledger, Reply) {
    if x !in l.attempts || !(l.attempts[x].state.Dispatched? || l.attempts[x].state.Uncertain?) then
      (l, Denied(NoDispatchToMark))
    else
      var row := WithState(l.attempts[x], Uncertain);
      (l.(attempts := l.attempts[x := row]), Attempted(AttemptOf(row)))
  }

  ghost predicate HasLiveDescendant(t: Table, x: Id)
    requires Forest(t)
  {
    exists y :: y in t && y != x && !t[y].state.Released? && Descends(t, y, x)
  }

  ghost function ReleaseAction(l: Ledger, x: Id): (Ledger, Reply)
    requires Forest(l.attempts)
  {
    if x !in l.attempts || !(l.attempts[x].state.Reserved? || l.attempts[x].state.Released?) then
      (l, Denied(MayBeInFlight))
    else if HasLiveDescendant(l.attempts, x) then
      (l, Denied(LiveDescendants))
    else
      var row := WithState(l.attempts[x], Released);
      (l.(attempts := l.attempts[x := row]), Attempted(AttemptOf(row)))
  }

  // ---------------------------------------------------------------- reconcile

  predicate Contradicts<T(==)>(known: Option<T>, reported: Option<T>) {
    known.Some? && known != reported
  }

  predicate ConflictingUpdate(row: Row, r: Receipt) {
    || Some(r.outcome) != row.outcome
    || Contradicts(row.tokens, r.tokens)
    || Contradicts(row.cost, r.cost)
    || Contradicts(row.bytes, r.bytes)
  }

  predicate Matches(ps: map<Id, Prerequisite>, claim: Claim, source: Id) {
    && claim.receipt in ps
    && ps[claim.receipt].source == source
    && ps[claim.receipt].payload == claim.payload
  }

  predicate HasPrerequisite(ps: map<Id, Prerequisite>, source: Id) {
    exists p :: p in ps && ps[p].source == source
  }

  function ReconcileDenial(l: Ledger, r: Receipt, establishes: Option<Claim>): (d: Option<Denial>)
    ensures d.None? ==> r.attempt in l.attempts
  {
    if r.attempt !in l.attempts then Some(AttemptNotFound)
    else
      var row := l.attempts[r.attempt];
      if !(row.state.Dispatched? || row.state.Uncertain? || row.state.UsageUnknown?) then Some(ConflictingTerminal)
      else if row.state.UsageUnknown? && ConflictingUpdate(row, r) then Some(ConflictingRevision)
      else if r.bytes.Some? && r.bytes.value > row.request.bytes then Some(OutputExceedsReservation)
      else if establishes.None? then None
      else if establishes.value.receipt in l.prerequisites then
        if Matches(l.prerequisites, establishes.value, r.attempt) then None else Some(ConflictingPrerequisite)
      else if HasPrerequisite(l.prerequisites, r.attempt) then Some(PrerequisiteAlreadyEstablished)
      else None
  }

  function Reconciled(row: Row, r: Receipt): Row {
    row.(state := if r.FullyKnown() then Settled else UsageUnknown,
         tokens := r.tokens,
         cost := r.cost,
         bytes := r.bytes,
         outcome := Some(r.outcome))
  }

  function Establish(ps: map<Id, Prerequisite>, claim: Option<Claim>, source: Id): map<Id, Prerequisite> {
    if claim.Some? && claim.value.receipt !in ps
    then ps[claim.value.receipt := Prerequisite(source, claim.value.payload, None)]
    else ps
  }

  ghost function ReconcileAction(l: Ledger, r: Receipt, establishes: Option<Claim>): (Ledger, Reply) {
    if r.id in l.receipts && l.receipts[r.id] != r then
      (l, Denied(ConflictingReceipt))
    else if r.attempt !in l.attempts then
      (l, Denied(AttemptNotFound))
    else if r.id in l.receipts then
      if establishes.Some? && !Matches(l.prerequisites, establishes.value, r.attempt) then
        (l, Denied(DuplicateCannotEstablish))
      else
        (l, Attempted(AttemptOf(l.attempts[r.attempt])))
    else
      match ReconcileDenial(l, r, establishes)
      case Some(why) => (l, Denied(why))
      case None =>
        var row := Reconciled(l.attempts[r.attempt], r);
        (l.(attempts := l.attempts[r.attempt := row],
            prerequisites := Establish(l.prerequisites, establishes, r.attempt),
            receipts := l.receipts[r.id := r]),
         Attempted(AttemptOf(row)))
  }

  /** The read-only question whether exactly this reconciliation is stored; it does not touch the clock. */
  ghost predicate IsDurable(l: Ledger, r: Receipt, establishes: Option<Claim>) {
    && r.id in l.receipts && l.receipts[r.id] == r
    && r.attempt in l.attempts
    && l.attempts[r.attempt] == Reconciled(l.attempts[r.attempt], r)
    && match establishes {
         case Some(c) => Matches(l.prerequisites, c, r.attempt) && l.prerequisites[c.receipt].consumedBy.None?
         case None => !HasPrerequisite(l.prerequisites, r.attempt)
       }
  }

  // ---------------------------------------------------------------- cancel, reports, restart

  function CancelRow(row: Row): Row {
    row.(cancelRequested := row.cancelRequested || row.state.Active(),
         state := if row.state.Reserved? then Released else row.state)
  }

  function CancelTable(t: Table): Table {
    map x | x in t :: CancelRow(t[x])
  }

  function ReportOf(row: Row): Report {
    var final := row.state.Released? || row.state.Settled?;
    Report(
      row.request.id,
      row.cancelRequested,
      row.cancelRequested
      && (row.state.Released? || row.outcome == Some(RunnerStopped) || row.outcome == Some(Cancelled)),
      row.cancelRequested && !final,
      final,
      row.outcome)
  }

  /** The least remaining time along the walk from x to its root. */
  ghost function ChainRemaining(t: Table, x: Id, elapsed: int, sofar: int): int
    requires Forest(t) && x in t
    decreases t[x].depth
  {
    var own := t[x].limits.maxElapsed - elapsed;
    var least := if own < sofar then own else sofar;
    if t[x].request.parent.Some? then ChainRemaining(t, t[x].request.parent.value, elapsed, least) else least
  }

  function AtLeastZero(n: int): nat {
    if n < 0 then 0 else n
  }

  ghost function RemainingAction(l: Ledger, x: Option<Id>): (Ledger, Reply)
    requires Forest(l.attempts)
  {
    var whole := l.policy.maxElapsed - Elapsed(l);
    match x
    case None => (l, Remaining(AtLeastZero(whole)))
    case Some(id) =>
      if id !in l.attempts then (l, Denied(AttemptNotFound))
      else (l, Remaining(AtLeastZero(ChainRemaining(l.attempts, id, Elapsed(l), whole))))
  }

  function RecoverRow(row: Row): Row {
    if row.state.Dispatched? then WithState(row, Uncertain) else row
  }

  function RecoverTable(t: Table): Table {
    map x | x in t :: RecoverRow(t[x])
  }

  // ---------------------------------------------------------------- one step

  /** What a call checks of its own arguments before it opens a transaction. */
  predicate WellFormed(op: Op) {
    match op
    case MarkDispatched(_, approval, _) =>
      approval.Some? ==>
        && approval.value.intent.issuedAt < approval.value.intent.expiresAt
        && |approval.value.intent.payload.text| <= MAX_DISPATCH_INTENT_BYTES
    case Reconcile(r, establishes) => establishes.Some? ==> r.outcome.Completed?
    case _ => true
  }

  /** The action inside the transaction, once the clock reading is stored. */
  ghost function Action(l: Ledger, op: Op): (Ledger, Reply)
    requires Forest(l.attempts)
  {
    var t := l.attempts;
    match op
    case Reserve(q, child) => ReserveAction(l, q, child)
    case GetAttempt(x) => if x in t then (l, Attempted(AttemptOf(t[x]))) else (l, Denied(AttemptNotFound))
    case GetIntent(x) => if x in l.intents then (l, Intended(l.intents[x])) else (l, Denied(IntentNotFound))
    case MarkDispatched(x, approval, claim) => DispatchAction(l, x, approval, claim)
    case MarkUncertain(x) => UncertainAction(l, x)
    case Release(x) => ReleaseAction(l, x)
    case Reconcile(r, establishes) => ReconcileAction(l, r, establishes)
    case Cancel => (l.(cancelled := true, attempts := CancelTable(t)), Done)
    case CancellationReport(x) => if x in t then (l, Reported(ReportOf(t[x]))) else (l, Denied(AttemptNotFound))
    case TakeSnapshot => (l, Counted(SnapshotOf(t, t.Keys, l.policy)))
    case RemainingElapsed(x) => RemainingAction(l, x)
    case Reopen(_) => (l.(attempts := RecoverTable(t)), Done)
  }

  /** The call gets as far as reading the clock inside its transaction. */
  predicate ReadsClock(l: Ledger, op: Op) {
    WellFormed(op) && (op.Reopen? ==> op.expected == PolicyOf(l))
  }

  ghost function Step(l: Ledger, op: Op, now: nat): (Ledger, Reply)
    requires Forest(l.attempts)
  {
    if !WellFormed(op) then (l, Invalid)
    else if op.Reopen? && op.expected != PolicyOf(l) then (l, Faulted(PolicyMismatch))
    else if now < l.lastSeen then (l, Faulted(ClockMovedBackward))
    else Action(l.(lastSeen := now), op)
  }

  /** The ledger that the constructor writes into an empty store. */
  function Fresh(policy: Policy, now: nat): Ledger {
    Ledger(policy.limits, policy.terms, now, now, false, map[], map[], map[], map[], map[])
  }
}
