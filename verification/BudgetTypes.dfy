/** The tables, requests and replies of the assessment budget ledger. */
module BudgetTypes {
  import opened Common

  /** Identifiers and canonical payloads are values that are only compared. */
  datatype Id = Id(text: string)
  datatype Payload = Payload(text: string)

  const MAX_DISPATCH_INTENT_BYTES := 64 * 1024

  datatype Limits = Limits(
    maxAttempts: nat,
    maxTokens: nat,
    maxCost: nat,
    maxElapsed: nat,
    maxConcurrency: nat,
    maxBytes: nat,
    maxDepth: nat,
    maxChildren: nat)
  {
    predicate IsWithin(parent: Limits) {
      && maxAttempts <= parent.maxAttempts
      && maxTokens <= parent.maxTokens
      && maxCost <= parent.maxCost
      && maxElapsed <= parent.maxElapsed
      && maxConcurrency <= parent.maxConcurrency
      && maxBytes <= parent.maxBytes
      && maxDepth <= parent.maxDepth
      && maxChildren <= parent.maxChildren
    }
  }

  /** The limits of an engagement, and the rest of its policy: engagement id, currency and price fields. */
  datatype Policy = Policy(limits: Limits, terms: Payload)

  datatype Request = Request(id: Id, parent: Option<Id>, tokens: nat, cost: nat, bytes: nat)

  datatype Outcome = Completed | TargetDenied | RunnerStopped | Failed | Cancelled

  datatype Receipt = Receipt(
    id: Id,
    attempt: Id,
    outcome: Outcome,
    tokens: Option<nat>,
    cost: Option<nat>,
    bytes: Option<nat>)
  {
    predicate FullyKnown() {
      tokens.Some? && cost.Some? && bytes.Some?
    }
  }

  datatype State = Reserved | Dispatched | Uncertain | UsageUnknown | Settled | Released
  {
    predicate Active() {
      Reserved? || Dispatched? || Uncertain?
    }

    predicate Charged() {
      Active() || UsageUnknown? || Settled?
    }

    /** The attempt has, at some time, been marked dispatched. */
    predicate EverDispatched() {
      Dispatched? || Uncertain? || UsageUnknown? || Settled?
    }
  }

  /** A row of the attempts table. */
  datatype Row = Row(
    request: Request,
    limits: Limits,
    depth: nat,
    state: State,
    tokens: Option<nat>,
    cost: Option<nat>,
    bytes: Option<nat>,
    outcome: Option<Outcome>,
    cancelRequested: bool)

  type Table = map<Id, Row>

  datatype Prerequisite = Prerequisite(source: Id, payload: Payload, consumedBy: Option<Id>)

  /** The dispatch intent together with the approval window it was issued for. */
  datatype Intent = Intent(payload: Payload, issuedAt: nat, expiresAt: nat)

  datatype Approval = Approval(receipt: Id, intent: Intent)

  /** A prerequisite id with the payload its owner or its consumer expects. */
  datatype Claim = Claim(receipt: Id, payload: Payload)

  /** The engagement row and the five tables. */
  datatype Ledger = Ledger(
    policy: Limits,
    terms: Payload,
    started: nat,
    lastSeen: nat,
    cancelled: bool,
    attempts: Table,
    receipts: map<Id, Receipt>,
    prerequisites: map<Id, Prerequisite>,
    approvals: map<Id, Id>,
    intents: map<Id, Intent>)

  datatype Attempt = Attempt(id: Id, parent: Option<Id>, state: State, depth: nat)

  datatype Snapshot = Snapshot(
    attempts: nat, tokens: nat, cost: nat, bytes: nat, active: nat, overBudget: bool)

  datatype Report = Report(
    id: Id,
    requested: bool,
    stopConfirmed: bool,
    pending: bool,
    finalKnown: bool,
    outcome: Option<Outcome>)

  datatype Denial =
    | ConflictingAttempt
    | EngagementCancelled
    | DeadlineExpired
    | ParentUnavailable
    | LimitsWidenParent
    | FanoutReached
    | DepthReached
    | SubtreeDeadlineExpired
    | AggregateExceeded
    | SubtreeExceeded
    | AttemptExceedsOwnLimits
    | AttemptNotFound
    | NotReserved
    | AncestorUnavailable
    | ApprovalNotValid
    | PrerequisiteMismatch
    | PrerequisiteConsumed
    | ApprovalReused
    | NoDispatchToMark
    | MayBeInFlight
    | LiveDescendants
    | ConflictingReceipt
    | DuplicateCannotEstablish
    | ConflictingTerminal
    | ConflictingRevision
    | OutputExceedsReservation
    | ConflictingPrerequisite
    | PrerequisiteAlreadyEstablished
    | IntentNotFound
    | ReceiptMismatch

  datatype StoreFault = ClockMovedBackward | PolicyMismatch | ConstraintViolated

  datatype Reply =
    | Attempted(attempt: Attempt)
    | Intended(intent: Intent)
    | Reported(report: Report)
    | Counted(snapshot: Snapshot)
    | Remaining(ms: nat)
    | Done
    | Denied(why: Denial)
    | Faulted(fault: StoreFault)
    | Invalid
  {
    /** The call returned normally instead of raising. */
    predicate Accepted() {
      !Denied? && !Faulted? && !Invalid?
    }
  }

  datatype Op =
    | Reserve(request: Request, child: Option<Limits>)
    | GetAttempt(id: Id)
    | GetIntent(id: Id)
    | MarkDispatched(id: Id, approval: Option<Approval>, claim: Option<Claim>)
    | MarkUncertain(id: Id)
    | Release(id: Id)
    | Reconcile(receipt: Receipt, establishes: Option<Claim>)
    | Cancel
    | CancellationReport(id: Id)
    | TakeSnapshot
    | RemainingElapsed(attempt: Option<Id>)
    | Reopen(expected: Policy)
}
