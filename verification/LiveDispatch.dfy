/**
 The live-dispatch protocol: any number of calls that share one ledger, interleaved transaction by transaction
 with each other and with any other user of the ledger, over a store that may raise before or after it commits.
 */
module LiveDispatch {
  import opened Common
  import opened BudgetTypes
  import opened AttemptForest
  import opened LedgerSpec
  import opened LedgerInvariant
  import opened LedgerRuns
  import opened LedgerWalks
  import opened LedgerGates
  import opened LedgerReplay
  import opened LedgerEffects

  /** What the evidence of a call says about the ledger. */
  datatype Label = Unknown | SawDispatched | SawUncertain | SawUsageUnknown

  datatype Result = Refused | Evidence(observed: Label) | Reraised

  /** The tries of marking a dispatch uncertain, or else observing its state. */
  datatype Observation = MarkFirst | LookFirst | MarkAgain | LookAgain

  /** What the call was doing when it began to observe: finishing well, handling a failure or an interruption. */
  datatype Cause = AfterSuccess | AfterFailure | AfterInterrupt

  /** Where a call stands, from the attempt lookup onwards. */
  datatype Pc =
    | LookUp
    | Reserving
    | Marking
    | Recovering
    | Releasing
    | ComparingIntent
    | ReadingDeadline
    | ReadyForGateway(at: nat, timeout: nat)
    | AwaitingGateway
    | Observing(step: Observation, cause: Cause)
    | Finished(result: Result)

  datatype LiveCall = LiveCall(
    request: Request,
    child: Option<Limits>,
    approval: Approval,
    allowance: nat,
    pc: Pc)

  datatype Client = ByCall(call: nat) | ByOther

  /** A transaction returns, raises with nothing committed, or raises although it committed. */
  datatype Fate = Returns | RaisesBefore | RaisesAfter

  datatype Event =
    | Begin(call: nat, request: Request, child: Option<Limits>, approval: Approval, allowance: nat)
    | Transact(call: nat, now: nat, fate: Fate)
    | StartGateway(call: nat)
    | GatewayEnds(call: nat, good: bool)
    | Interrupt(call: nat)
    | Other(op: Op, now: nat, fate: Fate)

  /** A start of the gateway, with the clock reading it rests on and how long the call will wait. */
  datatype GatewayStart = GatewayStart(call: nat, attempt: Id, at: nat, timeout: nat)

  datatype World = World(
    ledger: Ledger,
    calls: map<nat, LiveCall>,
    dispatchedBy: map<Id, Client>,
    returned: set<nat>,
    starts: seq<GatewayStart>)

  // ---------------------------------------------------------------- one call

  function AttemptId(c: LiveCall): Id {
    c.request.id
  }

  /** The next transaction of a call, if it is about to make one. */
  function NextOp(c: LiveCall): Option<Op> {
    var id := AttemptId(c);
    match c.pc
    case LookUp => Some(Op.GetAttempt(id))
    case Reserving => Some(Op.Reserve(c.request, c.child))
    case Marking => Some(Op.MarkDispatched(id, Some(c.approval), None))
    case Recovering => Some(Op.GetAttempt(id))
    case Releasing => Some(Op.Release(id))
    case ComparingIntent => Some(Op.GetIntent(id))
    case ReadingDeadline => Some(Op.RemainingElapsed(Some(id)))
    case Observing(step, _) =>
      if step.MarkFirst? || step.MarkAgain? then Some(Op.MarkUncertain(id)) else Some(Op.GetAttempt(id))
    case _ => None
  }

  function LabelOf(s: State): Label {
    match s
    case Dispatched => SawDispatched
    case Uncertain => SawUncertain
    case UsageUnknown => SawUsageUnknown
    case _ => Unknown
  }

  function Ending(cause: Cause, observed: Label): Pc {
    Finished(if cause.AfterInterrupt? then Reraised else Evidence(observed))
  }

  function Shorter(m: nat, n: nat): nat {
    if m < n then m else n
  }

  /** The call's next place, given the reply it saw, or None if the store raised at it, and the clock reading. */
  function After(c: LiveCall, seen: Option<Reply>, now: nat): Pc {
    var attempt := if seen.Some? && seen.value.Attempted? then Some(seen.value.attempt) else None;
    match c.pc
    case LookUp => if seen == Some(Denied(AttemptNotFound)) then Reserving else Finished(Refused)
    case Reserving => if attempt.Some? then Marking else Finished(Refused)
    case Marking => if attempt.Some? then ReadingDeadline else Recovering
    case Recovering =>
      if attempt.None? then Finished(Evidence(Unknown))
      else if attempt.value.state.Reserved? then Releasing
      else if attempt.value.state.Dispatched? || attempt.value.state.Uncertain? then ComparingIntent
      else Finished(Evidence(Unknown))
    case Releasing => Finished(Refused)
    case ComparingIntent =>
      if seen == Some(Intended(c.approval.intent)) then Observing(MarkFirst, AfterFailure)
      else Finished(Evidence(Unknown))
    case ReadingDeadline =>
      if seen.Some? && seen.value.Remaining? && Shorter(c.allowance, seen.value.ms) > 0
      then ReadyForGateway(now, Shorter(c.allowance, seen.value.ms))
      else Observing(MarkFirst, AfterFailure)
    case Observing(MarkFirst, cause) =>
      if attempt.Some? then Ending(cause, LabelOf(attempt.value.state)) else Observing(LookFirst, cause)
    case Observing(LookFirst, cause) =>
      if attempt.None? then Ending(cause, Unknown)
      else if attempt.value.state.Dispatched? then Observing(MarkAgain, cause)
      else Ending(cause, LabelOf(attempt.value.state))
    case Observing(MarkAgain, cause) =>
      if attempt.Some? then Ending(cause, LabelOf(attempt.value.state)) else Observing(LookAgain, cause)
    case Observing(LookAgain, cause) =>
      Ending(cause, if attempt.Some? then LabelOf(attempt.value.state) else Unknown)
    case _ => c.pc
  }

  /** Where an interruption, such as a cancellation of the worker, leaves the call. */
  function Interrupted(pc: Pc): Pc {
    match pc
    case ReadingDeadline => Observing(MarkFirst, AfterInterrupt)
    case ReadyForGateway(_, _) => Observing(MarkFirst, AfterInterrupt)
    case AwaitingGateway => Observing(MarkFirst, AfterInterrupt)
    case Observing(_, AfterSuccess) => Observing(MarkFirst, AfterInterrupt)
    case Finished(_) => pc
    case _ => Finished(Reraised)
  }

  // ---------------------------------------------------------------- the world

  /** One transaction of some client: the world afterwards, and the reply the client saw, if any. */
  ghost function Commit(w: World, who: Client, op: Op, now: nat, fate: Fate): (World, Option<Reply>)
    requires Forest(w.ledger.attempts)
  {
    if fate.RaisesBefore? then (w, None)
    else
      var (after, reply) := Step(w.ledger, op, now);
      var owners := if op.MarkDispatched? && reply.Accepted() then w.dispatchedBy[op.id := who] else w.dispatchedBy;
      (w.(ledger := after, dispatchedBy := owners), if fate.Returns? then Some(reply) else None)
  }

  function MoveTo(w: World, c: nat, pc: Pc): World
    requires c in w.calls
  {
    w.(calls := w.calls[c := w.calls[c].(pc := pc)])
  }

  function StartOf(c: nat, call: LiveCall): GatewayStart
    requires call.pc.ReadyForGateway?
  {
    GatewayStart(c, AttemptId(call), call.pc.at, call.pc.timeout)
  }

  ghost function Next(w: World, e: Event): World
    requires Forest(w.ledger.attempts)
  {
    match e
    case Begin(c, request, child, approval, allowance) =>
      if c in w.calls then w
      else w.(calls := w.calls[c := LiveCall(request, child, approval, allowance, LookUp)])
    case Transact(c, now, fate) =>
      if c !in w.calls || NextOp(w.calls[c]).None? then w
      else
        var call := w.calls[c];
        var (after, seen) := Commit(w, ByCall(c), NextOp(call).value, now, fate);
        var moved := MoveTo(after, c, After(call, seen, now));
        if call.pc.Marking? && seen.Some? && seen.value.Accepted()
        then moved.(returned := moved.returned + {c})
        else moved
    case StartGateway(c) =>
      if c !in w.calls || !w.calls[c].pc.ReadyForGateway? then w
      else MoveTo(w, c, AwaitingGateway).(starts := w.starts + [StartOf(c, w.calls[c])])
    case GatewayEnds(c, good) =>
      if c !in w.calls || !w.calls[c].pc.AwaitingGateway? then w
      else MoveTo(w, c, Observing(MarkFirst, if good then AfterSuccess else AfterFailure))
    case Interrupt(c) =>
      if c !in w.calls then w else MoveTo(w, c, Interrupted(w.calls[c].pc))
    case Other(op, now, fate) => Commit(w, ByOther, op, now, fate).0
  }

  // ---------------------------------------------------------------- the invariant

  /** The call has dispatched its attempt itself and may still start the gateway. */
  predicate HoldsDispatch(pc: Pc) {
    pc.ReadingDeadline? || pc.ReadyForGateway?
  }

  predicate PastGateway(pc: Pc) {
    pc.AwaitingGateway? || pc.Observing? || (pc.Finished? && !pc.result.Refused?)
  }

  ghost predicate DispatchersKnown(w: World) {
    forall x :: x in w.dispatchedBy <==> WasDispatched(w.ledger.attempts, x)
  }

  /** c dispatched its own attempt and saw that succeed. */
  ghost predicate Owns(w: World, c: nat) {
    && c in w.calls && c in w.returned
    && AttemptId(w.calls[c]) in w.dispatchedBy
    && w.dispatchedBy[AttemptId(w.calls[c])] == ByCall(c)
  }

  ghost predicate HoldersOwn(w: World) {
    forall c :: c in w.calls && (HoldsDispatch(w.calls[c].pc) || w.calls[c].pc.AwaitingGateway?) ==> Owns(w, c)
  }

  ghost predicate StartsOwned(w: World) {
    forall s :: s in w.starts ==>
      && Owns(w, s.call)
      && AttemptId(w.calls[s.call]) == s.attempt
      && PastGateway(w.calls[s.call].pc)
  }

  ghost predicate StartsDistinct(starts: seq<GatewayStart>) {
    forall i, j :: 0 <= i < j < |starts| ==> starts[i].attempt != starts[j].attempt
  }

  /** c is the client whose dispatch of c's own attempt the store accepted, seen by c or not. */
  ghost predicate DispatchedItself(w: World, c: nat)
    requires c in w.calls
  {
    var x := AttemptId(w.calls[c]);
    x in w.dispatchedBy && w.dispatchedBy[x] == ByCall(c)
  }

  /** Calls dispatch no attempt but their own. */
  ghost predicate DispatchersAreCalls(w: World) {
    forall x :: x in w.dispatchedBy && w.dispatchedBy[x].ByCall? ==>
      w.dispatchedBy[x].call in w.calls && AttemptId(w.calls[w.dispatchedBy[x].call]) == x
  }

  /** Where a call stands before it tries to dispatch, and once it knows that the try came to nothing. */
  predicate Undispatched(pc: Pc) {
    pc.LookUp? || pc.Reserving? || pc.Marking? || pc.Releasing? || pc == Finished(Refused)
  }

  ghost predicate RefusedDispatchedNothing(w: World) {
    forall c :: c in w.calls && Undispatched(w.calls[c].pc) ==> !DispatchedItself(w, c)
  }

  /** A wait from this clock reading on ends within the call's own allowance and the attempt's deadline. */
  ghost predicate InTime(w: World, call: LiveCall, at: nat, timeout: nat) {
    && 0 < timeout <= call.allowance
    && AttemptId(call) in w.ledger.attempts
    && at + timeout <= w.ledger.started + w.ledger.attempts[AttemptId(call)].limits.maxElapsed
  }

  ghost predicate StartsInTime(w: World) {
    && (forall c :: c in w.calls && w.calls[c].pc.ReadyForGateway? ==>
          InTime(w, w.calls[c], w.calls[c].pc.at, w.calls[c].pc.timeout))
    && (forall s :: s in w.starts ==> s.call in w.calls && InTime(w, w.calls[s.call], s.at, s.timeout))
  }

  /** The stored state is at least as far along as the label says. */
  predicate Supports(state: State, observed: Label) {
    match observed
    case Unknown => true
    case SawDispatched => state.EverDispatched()
    case SawUncertain => state.Uncertain? || state.UsageUnknown? || state.Settled?
    case SawUsageUnknown => state.UsageUnknown? || state.Settled?
  }

  /** No evidence claims more than the ledger holds. */
  ghost predicate LabelsTrue(w: World) {
    forall c :: c in w.calls && w.calls[c].pc.Finished? && w.calls[c].pc.result.Evidence? ==>
      var observed, x := w.calls[c].pc.result.observed, AttemptId(w.calls[c]);
      observed == Unknown || (x in w.ledger.attempts && Supports(w.ledger.attempts[x].state, observed))
  }

  /** From its dispatch on, and wherever it observes or reports something, the call deals with its own intent. */
  predicate NeedsIntent(pc: Pc) {
    || HoldsDispatch(pc) || pc.AwaitingGateway? || pc.Observing?
    || (pc.Finished? && pc.result.Evidence? && pc.result.observed != Unknown)
  }

  ghost predicate HasIntent(l: Ledger, call: LiveCall) {
    AttemptId(call) in l.intents && l.intents[AttemptId(call)] == call.approval.intent
  }

  /** The call has had its reservation accepted. */
  predicate HasReserved(pc: Pc) {
    || pc.Marking? || pc.Recovering? || pc.Releasing? || pc.ComparingIntent?
    || HoldsDispatch(pc) || pc.AwaitingGateway? || pc.Observing?
  }

  ghost predicate HasRequest(l: Ledger, call: LiveCall) {
    AttemptId(call) in l.attempts && l.attempts[AttemptId(call)].request == call.request
  }

  /** Every call deals with its own reservation, and from its dispatch on with its own intent. */
  ghost predicate IntentsOwn(w: World) {
    && w.returned <= w.calls.Keys
    && (forall c :: c in w.calls && (HasReserved(w.calls[c].pc) || c in w.returned) ==>
          HasRequest(w.ledger, w.calls[c]))
    && forall c :: c in w.calls && (NeedsIntent(w.calls[c].pc) || c in w.returned) ==> HasIntent(w.ledger, w.calls[c])
  }

  ghost predicate Safe(w: World) {
    && IntentsOwn(w)
    && StartsInTime(w)
    && LabelsTrue(w)
    && Inv(w.ledger)
    && DispatchersKnown(w)
    && DispatchersAreCalls(w)
    && RefusedDispatchedNothing(w)
    && HoldersOwn(w)
    && StartsOwned(w)
    && StartsDistinct(w.starts)
  }

  // ---------------------------------------------------------------- one transaction

  lemma CommitKeeps(w: World, who: Client, op: Op, now: nat, fate: Fate)
    requires Inv(w.ledger) && DispatchersKnown(w)
    ensures
      var after := Commit(w, who, op, now, fate).0;
      && Inv(after.ledger) && Progress(w.ledger, after.ledger)
      && DispatchersKnown(after)
      && (forall x :: x in w.dispatchedBy ==> x in after.dispatchedBy && after.dispatchedBy[x] == w.dispatchedBy[x])
      && after == w.(ledger := after.ledger, dispatchedBy := after.dispatchedBy)
    ensures
      var (after, seen) := Commit(w, who, op, now, fate);
      op.MarkDispatched? && seen.Some? && seen.value.Accepted() ==>
        op.id in after.dispatchedBy && after.dispatchedBy[op.id] == who
  {
    hide Inv, Forest, Action, Progress;
    InvIsForest(w.ledger);
    StepKeepsInv(w.ledger, op, now);
    NoChangeProgress(w.ledger);
    StepProgress(w.ledger, op, now);
    if !fate.RaisesBefore? {
      DispatchIsFresh(w.ledger, op, now);
    }
  }

  /** A step dispatches at most the attempt of an accepted dispatch, and that one for the first time. */
  lemma DispatchIsFresh(l: Ledger, op: Op, now: nat)
    requires Inv(l)
    ensures
      var (after, reply) := Step(l, op, now);
      if op.MarkDispatched? && reply.Accepted() then
        && !WasDispatched(l.attempts, op.id)
        && forall x :: WasDispatched(after.attempts, x) <==> x == op.id || WasDispatched(l.attempts, x)
      else SameDispatched(l.attempts, after.attempts)
  {
    hide Caps, Receipts, Grants, Narrow, Fanout, Shallow, ReleasedClosed, Shaped, Action;
    if l.lastSeen <= now && ReadsClock(l, op) {
      var k := l.(lastSeen := now);
      TickKeepsInv(l, now);
      if op.MarkDispatched? && Action(k, op).1.Accepted() {
        FreshDispatch(k, op);
      } else {
        OnlyDispatchDispatches(k, op);
      }
    }
  }

  lemma FreshDispatch(l: Ledger, op: Op)
    requires Forest(l.attempts) && op.MarkDispatched? && Action(l, op).1.Accepted()
    ensures !WasDispatched(l.attempts, op.id)
    ensures forall x :: WasDispatched(Action(l, op).0.attempts, x) <==> x == op.id || WasDispatched(l.attempts, x)
  {
    hide DispatchDenial;
    AcceptedDispatch(l, op.id, op.approval, op.claim);
  }

  lemma CommitRecords(w: World, who: Client, op: Op, now: nat, fate: Fate)
    requires Forest(w.ledger.attempts)
    ensures
      var after := Commit(w, who, op, now, fate).0;
      || after.dispatchedBy == w.dispatchedBy
      || (op.MarkDispatched? && after.dispatchedBy == w.dispatchedBy[op.id := who])
  {
    hide Step, Forest;
  }

  /** A lookup that shows a reserved attempt shows that nobody has dispatched it. */
  lemma LookUpShowsReserved(w: World, who: Client, x: Id, now: nat, fate: Fate)
    requires Inv(w.ledger) && DispatchersKnown(w)
    ensures
      var seen := Commit(w, who, Op.GetAttempt(x), now, fate).1;
      seen.Some? && seen.value.Attempted? && seen.value.attempt.state.Reserved? ==> x !in w.dispatchedBy
  {
    hide Caps, Receipts, Grants, Narrow, Fanout, Shallow, ReleasedClosed, Shaped;
  }

  /** A call is short of a dispatch after a transaction only if it was before, or if it saw its attempt reserved. */
  lemma UndispatchedAfter(call: LiveCall, seen: Option<Reply>, now: nat)
    requires NextOp(call).Some? && Undispatched(After(call, seen, now))
    ensures
      || (Undispatched(call.pc) && !NextOp(call).value.MarkDispatched?)
      || (NextOp(call).value == Op.GetAttempt(AttemptId(call))
          && seen.Some? && seen.value.Attempted? && seen.value.attempt.state.Reserved?)
  {
  }

  /** A transaction of a call leaves it short of a dispatch only if it has made none. */
  lemma TransactSparesRefused(w: World, c: nat, now: nat, fate: Fate)
    requires Safe(w) && c in w.calls && NextOp(w.calls[c]).Some?
    ensures
      var next := Next(w, Transact(c, now, fate));
      DispatchersAreCalls(next) && RefusedDispatchedNothing(next)
  {
    hide Inv, Forest, Commit, DispatchersKnown, StartsDistinct, StartsOwned, HoldersOwn,
      After, Undispatched, StartsInTime, LabelsTrue, IntentsOwn, Progress;
    InvIsForest(w.ledger);
    var call := w.calls[c];
    CommitRecords(w, ByCall(c), NextOp(call).value, now, fate);
    CommitKeeps(w, ByCall(c), NextOp(call).value, now, fate);
    LookUpShowsReserved(w, ByCall(c), AttemptId(call), now, fate);
    var seen := Commit(w, ByCall(c), NextOp(call).value, now, fate).1;
    if Undispatched(After(call, seen, now)) {
      UndispatchedAfter(call, seen, now);
    }
    var next := Next(w, Transact(c, now, fate));
    forall d | d in next.calls && Undispatched(next.calls[d].pc) ensures !DispatchedItself(next, d) {
      if d != c || Undispatched(call.pc) {
        assert !DispatchedItself(w, d);
      }
    }
  }

  lemma InTimeStays(w: World, v: World, call: LiveCall, at: nat, timeout: nat)
    requires Progress(w.ledger, v.ledger) && InTime(w, call, at, timeout)
    ensures InTime(v, call, at, timeout)
  {
    assert RowEvolves(w.ledger.attempts[AttemptId(call)], v.ledger.attempts[AttemptId(call)]);
  }

  lemma SupportsStays(l: Ledger, k: Ledger, x: Id, observed: Label)
    requires Progress(l, k) && x in l.attempts && Supports(l.attempts[x].state, observed)
    ensures x in k.attempts && Supports(k.attempts[x].state, observed)
  {
    assert RowEvolves(l.attempts[x], k.attempts[x]);
  }

  /** Calls and starts that stay as they were stay in time and keep true labels, whatever the ledger does. */
  lemma OthersStay(w: World, v: World, c: nat)
    requires StartsInTime(w) && LabelsTrue(w) && Progress(w.ledger, v.ledger)
    requires w.calls.Keys <= v.calls.Keys && forall d :: d in w.calls ==>
      v.calls[d].(pc := w.calls[d].pc) == w.calls[d] && (d != c ==> v.calls[d] == w.calls[d])
    requires forall d :: d in v.calls && d !in w.calls ==> d == c
    requires forall s :: s in v.starts ==>
      s in w.starts || (s.call == c && c in w.calls && w.calls[c].pc.ReadyForGateway? && s == StartOf(c, w.calls[c]))
    requires c in v.calls ==>
      && (v.calls[c].pc.ReadyForGateway? ==> InTime(v, v.calls[c], v.calls[c].pc.at, v.calls[c].pc.timeout))
      && (v.calls[c].pc.Finished? && v.calls[c].pc.result.Evidence? && v.calls[c].pc.result.observed != Unknown ==>
            && AttemptId(v.calls[c]) in v.ledger.attempts
            && Supports(v.ledger.attempts[AttemptId(v.calls[c])].state, v.calls[c].pc.result.observed))
    ensures StartsInTime(v) && LabelsTrue(v)
  {
    hide Progress, Supports, InTime;
    forall d | d in v.calls && v.calls[d].pc.ReadyForGateway?
      ensures InTime(v, v.calls[d], v.calls[d].pc.at, v.calls[d].pc.timeout)
    {
      if d != c {
        InTimeStays(w, v, w.calls[d], w.calls[d].pc.at, w.calls[d].pc.timeout);
      }
    }
    forall s | s in v.starts ensures s.call in v.calls && InTime(v, v.calls[s.call], s.at, s.timeout) {
      InTimeStays(w, v, w.calls[s.call], s.at, s.timeout);
      SameCallInTime(v, w.calls[s.call], v.calls[s.call], s.at, s.timeout);
    }
    forall d | d in v.calls && v.calls[d].pc.Finished? && v.calls[d].pc.result.Evidence?
      && v.calls[d].pc.result.observed != Unknown
      ensures AttemptId(v.calls[d]) in v.ledger.attempts
      ensures Supports(v.ledger.attempts[AttemptId(v.calls[d])].state, v.calls[d].pc.result.observed)
    {
      if d != c {
        SupportsStays(w.ledger, v.ledger, AttemptId(v.calls[d]), v.calls[d].pc.result.observed);
      }
    }
  }

  lemma SameCallInTime(w: World, call: LiveCall, other: LiveCall, at: nat, timeout: nat)
    requires InTime(w, call, at, timeout) && other.(pc := call.pc) == call
    ensures InTime(w, other, at, timeout)
  {
  }

  /** The time a call reads is the attempt's own, so the wait it decides on ends in time. */
  lemma ReadingIsInTime(w: World, call: LiveCall, who: Client, now: nat, fate: Fate)
    requires Inv(w.ledger) && call.pc.ReadingDeadline?
    ensures
      var (after, seen) := Commit(w, who, NextOp(call).value, now, fate);
      var pc := After(call, seen, now);
      pc.ReadyForGateway? ==> pc.at == now && InTime(after, call, pc.at, pc.timeout)
  {
    hide Caps, Receipts, Grants, Narrow, Fanout, Shallow, ReleasedClosed, Shaped, ChainRemaining;
    if AttemptId(call) in w.ledger.attempts && w.ledger.lastSeen <= now {
      RemainingIsOwn(w.ledger, AttemptId(call), now);
    }
  }

  /** What a call reports of the ledger is what the ledger showed it. */
  lemma ReportIsTrue(w: World, call: LiveCall, who: Client, now: nat, fate: Fate)
    requires Inv(w.ledger) && NextOp(call).Some?
    ensures
      var (after, seen) := Commit(w, who, NextOp(call).value, now, fate);
      var pc := After(call, seen, now);
      pc.Finished? && pc.result.Evidence? && pc.result.observed != Unknown ==>
        && AttemptId(call) in after.ledger.attempts
        && Supports(after.ledger.attempts[AttemptId(call)].state, pc.result.observed)
  {
    hide Inv, Forest, Action;
    InvIsForest(w.ledger);
    var op := NextOp(call).value;
    if Step(w.ledger, op, now).1.Attempted? {
      RepliesShowRows(w.ledger, op, now);
    }
  }

  // ---------------------------------------------------------------- every event

  lemma TransactKeepsSafe(w: World, c: nat, now: nat, fate: Fate)
    requires Safe(w) && c in w.calls && NextOp(w.calls[c]).Some?
    ensures Safe(Next(w, Transact(c, now, fate)))
  {
    hide Inv, Forest, Commit, DispatchersKnown, StartsDistinct, DispatchersAreCalls, RefusedDispatchedNothing,
      StartsInTime, LabelsTrue, IntentsOwn;
    InvIsForest(w.ledger);
    var call := w.calls[c];
    CommitKeeps(w, ByCall(c), NextOp(call).value, now, fate);
    TransactSparesRefused(w, c, now, fate);
    var (after, seen) := Commit(w, ByCall(c), NextOp(call).value, now, fate);
    var next := Next(w, Transact(c, now, fate));
    TransactStaysTimely(w, c, now, fate);
    TransactKeepsIntents(w, c, now, fate);
    assert DispatchersKnown(next) by {
      DispatchersDependOnTables(after, next);
    }
    forall d | d in next.calls && (HoldsDispatch(next.calls[d].pc) || next.calls[d].pc.AwaitingGateway?)
      ensures Owns(next, d)
    {
      if d != c || HoldsDispatch(call.pc) || call.pc.AwaitingGateway? {
        assert Owns(w, d);
      }
    }
    forall s | s in next.starts
      ensures Owns(next, s.call) && AttemptId(next.calls[s.call]) == s.attempt && PastGateway(next.calls[s.call].pc)
    {
      assert Owns(w, s.call) && PastGateway(w.calls[s.call].pc);
    }
  }

  lemma TransactStaysTimely(w: World, c: nat, now: nat, fate: Fate)
    requires Safe(w) && c in w.calls && NextOp(w.calls[c]).Some?
    ensures StartsInTime(Next(w, Transact(c, now, fate))) && LabelsTrue(Next(w, Transact(c, now, fate)))
  {
    hide Inv, Forest, Commit, DispatchersKnown, StartsDistinct, DispatchersAreCalls, RefusedDispatchedNothing,
      StartsOwned, HoldersOwn, StartsInTime, LabelsTrue, IntentsOwn, InTime, Supports, Progress;
    InvIsForest(w.ledger);
    var call := w.calls[c];
    CommitKeeps(w, ByCall(c), NextOp(call).value, now, fate);
    var (after, seen) := Commit(w, ByCall(c), NextOp(call).value, now, fate);
    var next := Next(w, Transact(c, now, fate));
    if call.pc.ReadingDeadline? {
      ReadingIsInTime(w, call, ByCall(c), now, fate);
    }
    ReportIsTrue(w, call, ByCall(c), now, fate);
    SameCallInTimeWorld(after, next, call, next.calls[c]);
    OthersStay(w, next, c);
  }

  lemma SameCallInTimeWorld(w: World, v: World, call: LiveCall, other: LiveCall)
    requires w.ledger == v.ledger && other.(pc := call.pc) == call
    ensures forall at: nat, timeout: nat :: InTime(w, call, at, timeout) ==> InTime(v, other, at, timeout)
  {
  }

  lemma DispatchersDependOnTables(w: World, v: World)
    requires DispatchersKnown(w) && v.ledger == w.ledger && v.dispatchedBy == w.dispatchedBy
    ensures DispatchersKnown(v)
  {
  }

  lemma StartStaysTimely(w: World, c: nat)
    requires Safe(w) && c in w.calls && w.calls[c].pc.ReadyForGateway?
    ensures Forest(w.ledger.attempts) && StartsInTime(Next(w, StartGateway(c))) && LabelsTrue(Next(w, StartGateway(c)))
    ensures IntentsOwn(Next(w, StartGateway(c)))
  {
    hide Inv;
    InvIsForest(w.ledger);
  }

  lemma StartKeepsSafe(w: World, c: nat)
    requires Safe(w) && c in w.calls && w.calls[c].pc.ReadyForGateway?
    ensures Safe(Next(w, StartGateway(c)))
  {
    hide Inv, Forest, StartsInTime, LabelsTrue, IntentsOwn;
    InvIsForest(w.ledger);
    StartStaysTimely(w, c);
    var next := Next(w, StartGateway(c));
    var start := StartOf(c, w.calls[c]);
    assert Owns(w, c);
    // An earlier start of the same attempt would have been this call's own, and this call is not past it.
    forall s | s in w.starts ensures s.attempt != start.attempt && s.call != c {
      assert Owns(w, s.call) && PastGateway(w.calls[s.call].pc);
    }
    forall s | s in next.starts
      ensures Owns(next, s.call) && AttemptId(next.calls[s.call]) == s.attempt && PastGateway(next.calls[s.call].pc)
    {
      if s != start {
        assert s in w.starts && Owns(w, s.call);
      }
    }
    forall d | d in next.calls && (HoldsDispatch(next.calls[d].pc) || next.calls[d].pc.AwaitingGateway?)
      ensures Owns(next, d)
    {
      assert Owns(w, d);
    }
  }

  lemma MoveStaysTimely(w: World, c: nat, pc: Pc)
    requires StartsInTime(w) && LabelsTrue(w) && IntentsOwn(w) && c in w.calls
    requires NeedsIntent(pc) ==> NeedsIntent(w.calls[c].pc)
    requires HasReserved(pc) ==> HasReserved(w.calls[c].pc)
    requires pc.ReadyForGateway? || (pc.Finished? && pc.result.Evidence?) ==> pc == w.calls[c].pc
    ensures StartsInTime(MoveTo(w, c, pc)) && LabelsTrue(MoveTo(w, c, pc)) && IntentsOwn(MoveTo(w, c, pc))
  {
  }

  /** A call that moves past the gateway, or not at all, keeps everything. */
  lemma MoveKeepsSafe(w: World, c: nat, pc: Pc)
    requires Safe(w) && c in w.calls
    requires (!HoldsDispatch(pc) && !pc.AwaitingGateway?) || pc == w.calls[c].pc
    requires PastGateway(w.calls[c].pc) ==> PastGateway(pc)
    requires Undispatched(pc) ==> pc == w.calls[c].pc
    requires pc.Finished? && pc.result.Evidence? ==> pc == w.calls[c].pc
    requires NeedsIntent(pc) ==> NeedsIntent(w.calls[c].pc)
    requires HasReserved(pc) ==> HasReserved(w.calls[c].pc)
    ensures Safe(MoveTo(w, c, pc))
  {
    hide Inv, Progress, StartsInTime, LabelsTrue, IntentsOwn, InTime, Supports;
    MoveStaysTimely(w, c, pc);
    var next := MoveTo(w, c, pc);
    forall d | d in next.calls && (HoldsDispatch(next.calls[d].pc) || next.calls[d].pc.AwaitingGateway?)
      ensures Owns(next, d)
    {
      assert Owns(w, d);
    }
    forall s | s in next.starts
      ensures Owns(next, s.call) && AttemptId(next.calls[s.call]) == s.attempt && PastGateway(next.calls[s.call].pc)
    {
      assert Owns(w, s.call);
    }
  }

  lemma LedgerMovesTimely(w: World, v: World)
    requires StartsInTime(w) && LabelsTrue(w) && Progress(w.ledger, v.ledger)
    requires v.calls == w.calls && v.starts == w.starts
    ensures StartsInTime(v) && LabelsTrue(v)
  {
    hide Progress, Supports, InTime;
    forall call: LiveCall, at: nat, timeout: nat | InTime(w, call, at, timeout) ensures InTime(v, call, at, timeout) {
      InTimeStays(w, v, call, at, timeout);
    }
    forall x, observed | x in w.ledger.attempts && Supports(w.ledger.attempts[x].state, observed)
      ensures x in v.ledger.attempts && Supports(v.ledger.attempts[x].state, observed)
    {
      SupportsStays(w.ledger, v.ledger, x, observed);
    }
  }

  lemma OtherKeepsSafe(w: World, op: Op, now: nat, fate: Fate)
    requires Safe(w)
    ensures Safe(Next(w, Other(op, now, fate)))
  {
    hide Inv, Forest, Commit, DispatchersKnown, StartsInTime, LabelsTrue, IntentsOwn, Progress;
    InvIsForest(w.ledger);
    CommitKeeps(w, ByOther, op, now, fate);
    CommitRecords(w, ByOther, op, now, fate);
    var next := Next(w, Other(op, now, fate));
    LedgerMovesTimely(w, next);
    LedgerMovesIntents(w, next);
    forall d | d in next.calls && (HoldsDispatch(next.calls[d].pc) || next.calls[d].pc.AwaitingGateway?)
      ensures Owns(next, d)
    {
      assert Owns(w, d);
    }
    forall s | s in next.starts
      ensures Owns(next, s.call) && AttemptId(next.calls[s.call]) == s.attempt && PastGateway(next.calls[s.call].pc)
    {
      assert Owns(w, s.call);
    }
  }

  lemma IntentsStay(l: Ledger, k: Ledger, call: LiveCall)
    requires Progress(l, k)
    ensures HasIntent(l, call) ==> HasIntent(k, call)
    ensures HasRequest(l, call) ==> HasRequest(k, call)
  {
    if HasRequest(l, call) {
      assert RowEvolves(l.attempts[AttemptId(call)], k.attempts[AttemptId(call)]);
    }
  }

  lemma LedgerMovesIntents(w: World, v: World)
    requires IntentsOwn(w) && Progress(w.ledger, v.ledger) && v.calls == w.calls && v.returned == w.returned
    ensures IntentsOwn(v)
  {
    hide Progress, HasIntent, HasRequest;
    forall c | c in v.calls
      ensures HasIntent(w.ledger, w.calls[c]) ==> HasIntent(v.ledger, v.calls[c])
      ensures HasRequest(w.ledger, w.calls[c]) ==> HasRequest(v.ledger, v.calls[c])
    {
      IntentsStay(w.ledger, v.ledger, w.calls[c]);
    }
  }

  /** A transaction that brings a call to where it needs its intent has stored it, or has just read it. */
  lemma TransactShowsIntent(w: World, c: nat, now: nat, fate: Fate)
    requires Inv(w.ledger) && Forest(w.ledger.attempts) && c in w.calls && NextOp(w.calls[c]).Some?
    requires !NeedsIntent(w.calls[c].pc)
    ensures
      var call := w.calls[c];
      var (after, seen) := Commit(w, ByCall(c), NextOp(call).value, now, fate);
      NeedsIntent(After(call, seen, now)) || (call.pc.Marking? && seen.Some? && seen.value.Accepted()) ==>
        HasIntent(after.ledger, call)
  {
    hide Inv, Forest, Step;
    var call := w.calls[c];
    var op := NextOp(call).value;
    if call.pc.Marking? && Step(w.ledger, op, now).1.Accepted() {
      DispatchSpends(w.ledger, AttemptId(call), Some(call.approval), None, now);
    }
    if call.pc.ComparingIntent? {
      IntentShows(w.ledger, AttemptId(call), now);
    }
    if Step(w.ledger, op, now).1.Attempted? {
      AttemptedIsAccepted(Step(w.ledger, op, now).1);
    }
  }

  /** A transaction that brings a call to where it has reserved is its own accepted reservation. */
  lemma TransactShowsRequest(w: World, c: nat, now: nat, fate: Fate)
    requires Inv(w.ledger) && Forest(w.ledger.attempts) && c in w.calls && NextOp(w.calls[c]).Some?
    requires !HasReserved(w.calls[c].pc)
    ensures
      var call := w.calls[c];
      var (after, seen) := Commit(w, ByCall(c), NextOp(call).value, now, fate);
      HasReserved(After(call, seen, now)) ==> HasRequest(after.ledger, call)
  {
    hide Inv, Forest, Step;
    var call := w.calls[c];
    var op := NextOp(call).value;
    if call.pc.Reserving? && Step(w.ledger, op, now).1.Attempted? {
      AttemptedIsAccepted(Step(w.ledger, op, now).1);
      AcceptedReserveHolds(w.ledger, call.request, call.child, now);
    }
  }

  /** Only a call that has reserved its attempt marks it dispatched. */
  lemma MarkingHasReserved(call: LiveCall)
    requires call.pc.Marking?
    ensures HasReserved(call.pc)
  {
  }

  lemma AttemptedIsAccepted(reply: Reply)
    requires reply.Attempted?
    ensures reply.Accepted()
  {
  }

  lemma IntentShows(l: Ledger, x: Id, now: nat)
    requires Inv(l) && Forest(l.attempts)
    ensures
      var (after, reply) := Step(l, Op.GetIntent(x), now);
      reply.Intended? ==> x in after.intents && after.intents[x] == reply.intent
  {
    hide Inv, Forest;
  }

  lemma TransactKeepsIntents(w: World, c: nat, now: nat, fate: Fate)
    requires Safe(w) && c in w.calls && NextOp(w.calls[c]).Some?
    ensures IntentsOwn(Next(w, Transact(c, now, fate)))
  {
    hide Inv, Forest, Commit, After, NeedsIntent, HasIntent, HasReserved, HasRequest, Progress, DispatchersKnown,
      StartsDistinct,
      DispatchersAreCalls, RefusedDispatchedNothing, StartsOwned, HoldersOwn, StartsInTime, LabelsTrue;
    InvIsForest(w.ledger);
    var call := w.calls[c];
    CommitKeeps(w, ByCall(c), NextOp(call).value, now, fate);
    var (after, seen) := Commit(w, ByCall(c), NextOp(call).value, now, fate);
    var next := Next(w, Transact(c, now, fate));
    if !NeedsIntent(call.pc) {
      TransactShowsIntent(w, c, now, fate);
    }
    if !HasReserved(call.pc) {
      TransactShowsRequest(w, c, now, fate);
    }
    if call.pc.Marking? {
      MarkingHasReserved(call);
    }
    forall d | d in next.calls
      ensures NeedsIntent(next.calls[d].pc) || d in next.returned ==> HasIntent(next.ledger, next.calls[d])
      ensures HasReserved(next.calls[d].pc) || d in next.returned ==> HasRequest(next.ledger, next.calls[d])
    {
      IntentsStay(w.ledger, next.ledger, w.calls[d]);
      SameCallIntent(next.ledger, w.calls[d], next.calls[d]);
    }
  }

  lemma SameCallIntent(l: Ledger, call: LiveCall, other: LiveCall)
    requires other.(pc := call.pc) == call
    ensures HasIntent(l, call) <==> HasIntent(l, other)
    ensures HasRequest(l, call) <==> HasRequest(l, other)
  {
  }

  lemma BeginStaysTimely(w: World, e: Event)
    requires Safe(w) && e.Begin?
    ensures Forest(w.ledger.attempts) && StartsInTime(Next(w, e)) && LabelsTrue(Next(w, e))
    ensures IntentsOwn(Next(w, e))
  {
    hide Inv;
    InvIsForest(w.ledger);
  }

  lemma BeginKeepsSafe(w: World, e: Event)
    requires Safe(w) && e.Begin?
    ensures Safe(Next(w, e))
  {
    hide Inv, Forest, StartsInTime, LabelsTrue, IntentsOwn;
    InvIsForest(w.ledger);
    BeginStaysTimely(w, e);
    var next := Next(w, e);
    forall d | d in next.calls && (HoldsDispatch(next.calls[d].pc) || next.calls[d].pc.AwaitingGateway?)
      ensures Owns(next, d)
    {
      assert Owns(w, d);
    }
    forall s | s in next.starts
      ensures Owns(next, s.call) && AttemptId(next.calls[s.call]) == s.attempt && PastGateway(next.calls[s.call].pc)
    {
      assert Owns(w, s.call);
    }
  }

  lemma NextKeepsSafe(w: World, e: Event)
    requires Safe(w)
    ensures Safe(Next(w, e))
  {
    hide Inv, Forest, Commit, DispatchersKnown, HoldersOwn, StartsOwned, StartsDistinct, DispatchersAreCalls,
      RefusedDispatchedNothing;
    InvIsForest(w.ledger);
    match e {
      case Begin(_, _, _, _, _) => BeginKeepsSafe(w, e);
      case Transact(c, now, fate) =>
        if c in w.calls && NextOp(w.calls[c]).Some? {
          TransactKeepsSafe(w, c, now, fate);
        }
      case StartGateway(c) =>
        if c in w.calls && w.calls[c].pc.ReadyForGateway? {
          StartKeepsSafe(w, c);
        }
      case GatewayEnds(c, good) =>
        if c in w.calls && w.calls[c].pc.AwaitingGateway? {
          MoveKeepsSafe(w, c, Observing(MarkFirst, if good then AfterSuccess else AfterFailure));
        }
      case Interrupt(c) =>
        if c in w.calls {
          MoveKeepsSafe(w, c, Interrupted(w.calls[c].pc));
        }
      case Other(op, now, fate) => OtherKeepsSafe(w, op, now, fate);
    }
  }

  // ---------------------------------------------------------------- every interleaving

  ghost function Interleave(w: World, events: seq<Event>): (after: World)
    requires Safe(w)
    ensures Safe(after)
    decreases |events|
  {
    if events == [] then w
    else
      NextKeepsSafe(w, events[0]);
      Interleave(Next(w, events[0]), events[1..])
  }

  /** No calls yet, over any ledger that a run can have produced. */
  ghost function Quiet(h: History): (w: World)
    requires Sound(h)
    ensures Safe(w)
  {
    World(h.ledger, map[], map x | x in h.log :: ByOther, {}, [])
  }

  lemma SafeIsForest(w: World)
    requires Safe(w)
    ensures Forest(w.ledger.attempts)
  {
  }

  /** A call is ready, or a start is recorded, only since the call read the remaining time itself, at that moment. */
  ghost predicate ReadBy(w: World, s: GatewayStart) {
    || s in w.starts
    || (s.call in w.calls && w.calls[s.call].pc.ReadyForGateway? && StartOf(s.call, w.calls[s.call]) == s)
  }

  lemma NextReads(w: World, e: Event, s: GatewayStart)
    requires Safe(w) && ReadBy(Next(w, e), s)
    ensures ReadBy(w, s) || e == Transact(s.call, s.at, Returns)
  {
    hide Inv, Step, Forest;
    InvIsForest(w.ledger);
  }

  lemma {:induction false} StartsWereRead(w: World, events: seq<Event>, s: GatewayStart)
    requires Safe(w) && ReadBy(Interleave(w, events), s)
    ensures ReadBy(w, s) || Transact(s.call, s.at, Returns) in events
    decreases |events|
  {
    hide Safe, ReadBy, Next, Forest;
    if events != [] {
      SafeIsForest(w);
      NextKeepsSafe(w, events[0]);
      StartsWereRead(Next(w, events[0]), events[1..], s);
      if ReadBy(Next(w, events[0]), s) {
        NextReads(w, events[0], s);
      }
    }
  }

  /**
   Over every interleaving: the gateway is started at most once per attempt, only by a call whose own
   dispatch mark returned normally, and an attempt whose gateway was started stays charged for good. A call that
   ends refused never dispatched its attempt itself, whatever the store did with its transactions.
   */
  lemma GatewayAtMostOnce(h: History, events: seq<Event>)
    requires Sound(h)
    ensures
      var w := Interleave(Quiet(h), events);
      && (forall i, j :: 0 <= i < j < |w.starts| ==> w.starts[i].attempt != w.starts[j].attempt)
      && (forall s :: s in w.starts ==>
            && s.call in w.returned
            && s.call in w.calls && w.calls[s.call].pc != Finished(Refused)
            && s.attempt in w.ledger.attempts
            && w.ledger.attempts[s.attempt].state.EverDispatched()
            && w.ledger.attempts[s.attempt].state != Reserved && w.ledger.attempts[s.attempt].state != Released)
      && (forall x :: x in w.dispatchedBy <==> WasDispatched(w.ledger.attempts, x))
      && (forall c :: c in w.calls && w.calls[c].pc == Finished(Refused) ==> !DispatchedItself(w, c))
  {
    hide Inv, InTime, LabelsTrue;
    var w := Interleave(Quiet(h), events);
    forall s | s in w.starts
      ensures s.call in w.returned && s.call in w.calls && w.calls[s.call].pc != Finished(Refused)
      ensures s.attempt in w.ledger.attempts && w.ledger.attempts[s.attempt].state.EverDispatched()
    {
      assert Owns(w, s.call);
    }
  }

  /**
   Over every interleaving: a call starts the gateway only after a transaction of its own read the clock while time
   was left, and waits no longer than its own allowance and the attempt's deadline.
   */
  lemma GatewayInTime(h: History, events: seq<Event>, s: GatewayStart)
    requires Sound(h) && s in Interleave(Quiet(h), events).starts
    ensures
      var w := Interleave(Quiet(h), events);
      && Transact(s.call, s.at, Returns) in events
      && s.call in w.calls && s.attempt in w.ledger.attempts
      && 0 < s.timeout <= w.calls[s.call].allowance
      && s.at + s.timeout <= h.ledger.started + w.ledger.attempts[s.attempt].limits.maxElapsed
  {
    hide Inv, LabelsTrue, Sound;
    StartsWereRead(Quiet(h), events, s);
    StartedStays(Quiet(h), events);
    var w := Interleave(Quiet(h), events);
    assert Owns(w, s.call) && InTime(w, w.calls[s.call], s.at, s.timeout);
  }

  lemma NextStarted(w: World, e: Event)
    requires Safe(w)
    ensures Next(w, e).ledger.started == w.ledger.started
  {
    hide Inv, Forest, Step;
    InvIsForest(w.ledger);
    if e.Other? {
      StepProgress(w.ledger, e.op, e.now);
    } else if e.Transact? && e.call in w.calls && NextOp(w.calls[e.call]).Some? {
      StepProgress(w.ledger, NextOp(w.calls[e.call]).value, e.now);
    }
  }

  lemma {:induction false} StartedStays(w: World, events: seq<Event>)
    requires Safe(w)
    ensures Interleave(w, events).ledger.started == w.ledger.started
    decreases |events|
  {
    hide Safe, Next, Forest;
    if events != [] {
      SafeIsForest(w);
      NextKeepsSafe(w, events[0]);
      NextStarted(w, events[0]);
      StartedStays(Next(w, events[0]), events[1..]);
    }
  }

  /** Over every interleaving: no evidence claims that an attempt is further along than the ledger holds. */
  lemma EvidenceIsTrue(h: History, events: seq<Event>, c: nat)
    requires Sound(h) && c in Interleave(Quiet(h), events).calls
    ensures
      var w := Interleave(Quiet(h), events);
      var x := AttemptId(w.calls[c]);
      && (w.calls[c].pc == Finished(Evidence(SawDispatched)) ==> WasDispatched(w.ledger.attempts, x))
      && (w.calls[c].pc == Finished(Evidence(SawUncertain)) ==>
            WasDispatched(w.ledger.attempts, x) && w.ledger.attempts[x].state != Dispatched)
      && (w.calls[c].pc == Finished(Evidence(SawUsageUnknown)) ==>
            && x in w.ledger.attempts
            && (w.ledger.attempts[x].state == UsageUnknown || w.ledger.attempts[x].state == Settled))
  {
    hide Inv, StartsInTime, Sound;
  }

  /**
   Over every interleaving: a call marks, observes or starts the gateway only for a stored reservation of its own
   request, and starts, observes or reports something only under its own stored intent.
   */
  lemma IntentIsOwn(h: History, events: seq<Event>, c: nat)
    requires Sound(h) && c in Interleave(Quiet(h), events).calls
    ensures
      var w := Interleave(Quiet(h), events);
      var call := w.calls[c];
      var x, started := AttemptId(call), exists s :: s in w.starts && s.call == c;
      && (started || call.pc.Marking? || call.pc.Observing? ==>
            x in w.ledger.attempts && w.ledger.attempts[x].request == call.request)
      && (started || call.pc.Observing?
          || (call.pc.Finished? && call.pc.result.Evidence? && call.pc.result.observed != Unknown) ==>
            x in w.ledger.intents && w.ledger.intents[x] == call.approval.intent)
  {
    hide Inv, Sound, StartsInTime, LabelsTrue;
    var w := Interleave(Quiet(h), events);
    forall s | s in w.starts && s.call == c ensures c in w.returned {
      assert Owns(w, s.call);
    }
  }

  // ---------------------------------------------------------------- one call to its end

  function StepRank(step: Observation): nat {
    match step
    case MarkFirst => 4
    case LookFirst => 3
    case MarkAgain => 2
    case LookAgain => 1
  }

  /** How many events of its own, at most, a call still has before it. */
  function Rank(pc: Pc): nat {
    match pc
    case LookUp => 14
    case Reserving => 13
    case Marking => 12
    case ReadingDeadline => 11
    case ReadyForGateway(_, _) => 10
    case AwaitingGateway => 9
    case Recovering => 9
    case ComparingIntent => 8
    case Observing(step, cause) => StepRank(step) + if cause.AfterSuccess? then 4 else 0
    case Releasing => 1
    case Finished(_) => 0
  }

  predicate OfCall(e: Event, c: nat) {
    match e
    case Begin(d, _, _, _, _) => c == d
    case Transact(d, _, _) => c == d
    case StartGateway(d) => c == d
    case GatewayEnds(d, _) => c == d
    case Interrupt(d) => c == d
    case Other(_, _, _) => false
  }

  lemma TransactionRanks(call: LiveCall, seen: Option<Reply>, now: nat)
    requires NextOp(call).Some?
    ensures Rank(After(call, seen, now)) < Rank(call.pc)
  {
  }

  lemma InterruptionRanks(pc: Pc)
    ensures Interrupted(pc) == pc || Rank(Interrupted(pc)) < Rank(pc)
    ensures Rank(pc) == 0 <==> pc.Finished?
  {
  }

  /**
   Every event that moves a call brings it closer to its end, and every transaction moves it, whatever the store and
   the other users do: so a call takes part in at most fourteen events that matter.
   */
  lemma CallsEnd(w: World, e: Event, c: nat)
    requires Safe(w) && c in w.calls
    ensures Forest(w.ledger.attempts) && c in Next(w, e).calls
    ensures
      var pc, next := w.calls[c].pc, Next(w, e).calls[c].pc;
      && (next != pc ==> OfCall(e, c) && Rank(next) < Rank(pc))
      && (e.Transact? && e.call == c && NextOp(w.calls[c]).Some? ==> next != pc)
      && (pc.ReadyForGateway? && e == StartGateway(c) ==> next != pc)
      && (pc.AwaitingGateway? && e.GatewayEnds? && e.call == c ==> next != pc)
      && (Rank(pc) == 0 <==> pc.Finished?)
  {
    hide Safe, Forest, Commit, After, Interrupted, Rank;
    SafeIsForest(w);
    InterruptionRanks(w.calls[c].pc);
    match e {
      case Begin(_, _, _, _, _) =>
      case Transact(d, now, fate) =>
        if d in w.calls && NextOp(w.calls[d]).Some? {
          var (after, seen) := Commit(w, ByCall(d), NextOp(w.calls[d]).value, now, fate);
          CommitKeepsRest(w, ByCall(d), NextOp(w.calls[d]).value, now, fate);
          TransactionRanks(w.calls[d], seen, now);
        }
      case StartGateway(d) => GatewayRanks(w.calls[c].pc);
      case GatewayEnds(d, _) => GatewayRanks(w.calls[c].pc);
      case Interrupt(d) =>
      case Other(op, now, fate) => CommitKeepsRest(w, ByOther, op, now, fate);
    }
  }

  lemma GatewayRanks(pc: Pc)
    ensures pc.ReadyForGateway? ==> Rank(AwaitingGateway) < Rank(pc)
    ensures pc.AwaitingGateway? ==>
      Rank(Observing(MarkFirst, AfterSuccess)) < Rank(pc) && Rank(Observing(MarkFirst, AfterFailure)) < Rank(pc)
  {
  }

  // ---------------------------------------------------------------- a call that nobody disturbs

  lemma InterleaveCons(w: World, e: Event, rest: seq<Event>)
    requires Safe(w)
    ensures Forest(w.ledger.attempts) && Safe(Next(w, e))
    ensures Interleave(w, [e] + rest) == Interleave(Next(w, e), rest)
  {
    hide Inv, Next;
    InvIsForest(w.ledger);
    NextKeepsSafe(w, e);
    assert ([e] + rest)[1..] == rest;
  }

  /** A returning transaction: the ledger steps, and the call goes where its reply sends it. */
  lemma Returned(w: World, c: nat, now: nat)
    requires Safe(w) && c in w.calls && NextOp(w.calls[c]).Some?
    ensures Forest(w.ledger.attempts)
    ensures
      var (after, reply) := Step(w.ledger, NextOp(w.calls[c]).value, now);
      var next := Next(w, Transact(c, now, Returns));
      && next.ledger == after && next.starts == w.starts
      && c in next.calls && next.calls[c] == w.calls[c].(pc := After(w.calls[c], Some(reply), now))
  {
    hide Inv, Forest, Step, After;
    InvIsForest(w.ledger);
  }

  /** A call for a fresh attempt that can be reserved and dispatched gets both. */
  lemma ReachesDispatch(w: World, c: nat, t: seq<nat>)
    requires Safe(w) && c in w.calls && w.calls[c].pc == LookUp && |t| == 3
    requires w.ledger.lastSeen <= t[0]
    requires var l := w.ledger.(lastSeen := t[0]);
      && AttemptId(w.calls[c]) !in l.attempts && Inv(l)
      && var (k, reply) := Step(l, Op.Reserve(w.calls[c].request, w.calls[c].child), t[1]);
         && reply.Accepted() && Inv(k)
         && Step(k, Op.MarkDispatched(AttemptId(w.calls[c]), Some(w.calls[c].approval), None), t[2]).1.Accepted()
    ensures
      var x := AttemptId(w.calls[c]);
      var v := Interleave(w, [Transact(c, t[0], Returns), Transact(c, t[1], Returns), Transact(c, t[2], Returns)]);
      && c in v.calls && v.calls[c] == w.calls[c].(pc := ReadingDeadline) && v.starts == w.starts
      && v.ledger.lastSeen == t[2] && v.ledger.started == w.ledger.started
      && x in v.ledger.attempts && v.ledger.attempts[x].state == Dispatched
      && x in v.ledger.intents && v.ledger.intents[x] == w.calls[c].approval.intent
  {
    hide Inv, Forest, Step, Next, Interleave, Safe, NextOp, After;
    SafeInv(w);
    var e0, e1, e2 := Transact(c, t[0], Returns), Transact(c, t[1], Returns), Transact(c, t[2], Returns);
    LookUpReturns(w, c, t[0]);
    InterleaveCons(w, e0, [e1, e2]);
    assert [e0] + [e1, e2] == [e0, e1, e2];
    var w1 := Next(w, e0);
    SafeInv(w1);
    ReserveReturns(w1, c, t[1]);
    InterleaveCons(w1, e1, [e2]);
    assert [e1] + [e2] == [e1, e2];
    var w2 := Next(w1, e1);
    SafeInv(w2);
    DispatchReturns(w2, c, t[2]);
    InterleaveCons(w2, e2, []);
    assert [e2] + [] == [e2];
    InterleaveNothing(Next(w2, e2));
  }

  lemma LookUpReturns(w: World, c: nat, now: nat)
    requires Safe(w) && c in w.calls && w.calls[c].pc == LookUp && w.ledger.lastSeen <= now
    requires AttemptId(w.calls[c]) !in w.ledger.attempts
    ensures Forest(w.ledger.attempts)
    ensures
      var next := Next(w, Transact(c, now, Returns));
      && next.ledger == w.ledger.(lastSeen := now) && next.starts == w.starts
      && c in next.calls && next.calls[c] == w.calls[c].(pc := Reserving)
  {
    hide Inv, Forest, Step, Next, Safe;
    SafeInv(w);
    Returned(w, c, now);
    LookUpExactly(w.ledger, AttemptId(w.calls[c]), now);
  }

  lemma ReserveReturns(w: World, c: nat, now: nat)
    requires Safe(w) && c in w.calls && w.calls[c].pc == Reserving && Forest(w.ledger.attempts)
    requires AttemptId(w.calls[c]) !in w.ledger.attempts
    requires Step(w.ledger, Op.Reserve(w.calls[c].request, w.calls[c].child), now).1.Accepted()
    ensures
      var next := Next(w, Transact(c, now, Returns));
      && next.ledger == Step(w.ledger, Op.Reserve(w.calls[c].request, w.calls[c].child), now).0
      && next.ledger.started == w.ledger.started && next.starts == w.starts
      && c in next.calls && next.calls[c] == w.calls[c].(pc := Marking)
  {
    hide Inv, Forest, Step, Next, Safe;
    SafeInv(w);
    Returned(w, c, now);
    ReserveStores(w.ledger, w.calls[c].request, w.calls[c].child, now);
    AcceptedIsAttempted(w.ledger, Op.Reserve(w.calls[c].request, w.calls[c].child), now);
  }

  lemma DispatchReturns(w: World, c: nat, now: nat)
    requires Safe(w) && c in w.calls && w.calls[c].pc == Marking && Forest(w.ledger.attempts)
    requires Step(w.ledger, Op.MarkDispatched(AttemptId(w.calls[c]), Some(w.calls[c].approval), None), now).1.Accepted()
    ensures
      var next, x := Next(w, Transact(c, now, Returns)), AttemptId(w.calls[c]);
      && c in next.calls && next.calls[c] == w.calls[c].(pc := ReadingDeadline) && next.starts == w.starts
      && next.ledger.lastSeen == now && next.ledger.started == w.ledger.started
      && x in next.ledger.attempts && next.ledger.attempts[x].state == Dispatched
      && x in next.ledger.intents && next.ledger.intents[x] == w.calls[c].approval.intent
  {
    hide Inv, Forest, Step, Next, Safe;
    SafeInv(w);
    Returned(w, c, now);
    DispatchSpends(w.ledger, AttemptId(w.calls[c]), Some(w.calls[c].approval), None, now);
    AcceptedIsAttempted(w.ledger, Op.MarkDispatched(AttemptId(w.calls[c]), Some(w.calls[c].approval), None), now);
  }

  lemma InterleaveNothing(w: World)
    requires Safe(w)
    ensures Interleave(w, []) == w
  {
  }

  lemma SafeInv(w: World)
    requires Safe(w)
    ensures Inv(w.ledger) && Forest(w.ledger.attempts)
  {
  }

  lemma AcceptedIsAttempted(l: Ledger, op: Op, now: nat)
    requires Inv(l) && Step(l, op, now).1.Accepted()
    requires op.Reserve? || op.MarkDispatched? || op.MarkUncertain? || op.Release?
    ensures Step(l, op, now).1.Attempted?
  {
    hide Caps, Receipts, Grants, Narrow, Fanout, Shallow, ReleasedClosed, Shaped, ReserveDenial, DispatchDenial,
      HasLiveDescendant;
  }

  /**
   With time left the dispatched call starts the gateway once, for as long as it may wait, and ends with the attempt
   marked uncertain and evidence that says so, whether the gateway answered well or not; without time it ends the
   same way with no start.
   */
  lemma DispatchedCallEnds(w: World, c: nat, read: nat, marked: nat, good: bool)
    requires Safe(w) && c in w.calls && w.calls[c].pc == ReadingDeadline && w.ledger.lastSeen <= read <= marked
    requires var x := AttemptId(w.calls[c]); x in w.ledger.attempts && w.ledger.attempts[x].state == Dispatched
    ensures
      var x := AttemptId(w.calls[c]);
      var until := w.ledger.started + w.ledger.attempts[x].limits.maxElapsed;
      var inTime := read < until && w.calls[c].allowance > 0;
      var v := Interleave(w, [Transact(c, read, Returns)]
        + (if inTime then [StartGateway(c), GatewayEnds(c, good)] else []) + [Transact(c, marked, Returns)]);
      && c in v.calls && v.calls[c].pc == Finished(Evidence(SawUncertain))
      && x in v.ledger.attempts && v.ledger.attempts[x].state == Uncertain
      && v.starts == w.starts
           + if inTime then [GatewayStart(c, x, read, Shorter(w.calls[c].allowance, until - read))] else []
  {
    hide Inv, Forest, Step, Next, Interleave, Safe;
    var call, x := w.calls[c], AttemptId(w.calls[c]);
    var until := w.ledger.started + w.ledger.attempts[x].limits.maxElapsed;
    var first, last := Transact(c, read, Returns), Transact(c, marked, Returns);
    ReadsDeadline(w, c, read);
    var ready := Next(w, first);
    if read < until && call.allowance > 0 {
      var middle := [StartGateway(c), GatewayEnds(c, good)];
      InterleaveCons(w, first, middle + [last]);
      assert [first] + (middle + [last]) == [first] + middle + [last];
      assert middle + [last] == [StartGateway(c), GatewayEnds(c, good), last];
      RunsGateway(ready, c, marked, good);
    } else {
      InterleaveCons(w, first, [last]);
      assert [first] + [] + [last] == [first] + [last];
      MarksUncertain(ready, c, marked);
    }
  }

  lemma ReadsDeadline(w: World, c: nat, read: nat)
    requires Safe(w) && c in w.calls && w.calls[c].pc == ReadingDeadline && w.ledger.lastSeen <= read
    requires AttemptId(w.calls[c]) in w.ledger.attempts
    ensures Forest(w.ledger.attempts)
    ensures
      var next, call := Next(w, Transact(c, read, Returns)), w.calls[c];
      var until := w.ledger.started + w.ledger.attempts[AttemptId(call)].limits.maxElapsed;
      && next.ledger == w.ledger.(lastSeen := read) && next.starts == w.starts && c in next.calls
      && next.calls[c] == call.(pc :=
           if read < until && call.allowance > 0 then ReadyForGateway(read, Shorter(call.allowance, until - read))
           else Observing(MarkFirst, AfterFailure))
  {
    hide Inv, Forest, Step, Next, Safe;
    SafeInv(w);
    Returned(w, c, read);
    RemainingIsOwn(w.ledger, AttemptId(w.calls[c]), read);
    RemainingReads(w.ledger, AttemptId(w.calls[c]), read);
  }

  lemma RunsGateway(w: World, c: nat, marked: nat, good: bool)
    requires Safe(w) && c in w.calls && w.calls[c].pc.ReadyForGateway? && w.ledger.lastSeen <= marked
    requires var x := AttemptId(w.calls[c]); x in w.ledger.attempts && w.ledger.attempts[x].state == Dispatched
    ensures
      var x := AttemptId(w.calls[c]);
      var v := Interleave(w, [StartGateway(c), GatewayEnds(c, good), Transact(c, marked, Returns)]);
      && c in v.calls && v.calls[c].pc == Finished(Evidence(SawUncertain))
      && x in v.ledger.attempts && v.ledger.attempts[x].state == Uncertain
      && v.starts == w.starts + [StartOf(c, w.calls[c])]
  {
    hide Inv, Forest, Step, Next, Interleave, Safe;
    var last := Transact(c, marked, Returns);
    Started(w, c);
    InterleaveCons(w, StartGateway(c), [GatewayEnds(c, good), last]);
    assert [StartGateway(c)] + [GatewayEnds(c, good), last] == [StartGateway(c), GatewayEnds(c, good), last];
    var waiting := Next(w, StartGateway(c));
    Answered(waiting, c, good);
    InterleaveCons(waiting, GatewayEnds(c, good), [last]);
    assert [GatewayEnds(c, good)] + [last] == [GatewayEnds(c, good), last];
    MarksUncertain(Next(waiting, GatewayEnds(c, good)), c, marked);
  }

  lemma RemainingReads(l: Ledger, x: Id, now: nat)
    requires Inv(l) && x in l.attempts && l.lastSeen <= now
    ensures Step(l, Op.RemainingElapsed(Some(x)), now).0 == l.(lastSeen := now)
  {
    hide Caps, Receipts, Grants, Narrow, Fanout, Shallow, ReleasedClosed, Shaped, ChainRemaining;
  }

  lemma Started(w: World, c: nat)
    requires Safe(w) && c in w.calls && w.calls[c].pc.ReadyForGateway?
    ensures Forest(w.ledger.attempts)
    ensures
      var next := Next(w, StartGateway(c));
      && next.ledger == w.ledger && next.starts == w.starts + [StartOf(c, w.calls[c])]
      && c in next.calls && next.calls[c] == w.calls[c].(pc := AwaitingGateway)
  {
    hide Inv;
    InvIsForest(w.ledger);
  }

  lemma Answered(w: World, c: nat, good: bool)
    requires Safe(w) && c in w.calls && w.calls[c].pc.AwaitingGateway?
    ensures Forest(w.ledger.attempts)
    ensures
      var next := Next(w, GatewayEnds(c, good));
      && next.ledger == w.ledger && next.starts == w.starts && c in next.calls
      && next.calls[c] == w.calls[c].(pc := Observing(MarkFirst, if good then AfterSuccess else AfterFailure))
  {
    hide Inv;
    InvIsForest(w.ledger);
  }

  lemma MarksUncertain(w: World, c: nat, now: nat)
    requires Safe(w) && c in w.calls && w.calls[c].pc.Observing? && w.calls[c].pc.step.MarkFirst?
    requires w.ledger.lastSeen <= now
    requires AttemptId(w.calls[c]) in w.ledger.attempts
    requires var state := w.ledger.attempts[AttemptId(w.calls[c])].state; state == Dispatched || state == Uncertain
    ensures
      var v, x := Interleave(w, [Transact(c, now, Returns)]), AttemptId(w.calls[c]);
      && c in v.calls && v.starts == w.starts
      && v.calls[c].pc
         == Finished(if w.calls[c].pc.cause == AfterInterrupt then Reraised else Evidence(SawUncertain))
      && x in v.ledger.attempts && v.ledger.attempts[x].state == Uncertain
  {
    hide Inv, Forest, Step, Next, Interleave, Safe;
    SafeInv(w);
    var x := AttemptId(w.calls[c]);
    Returned(w, c, now);
    UncertainExactly(w.ledger, x, now);
    AcceptedIsAttempted(w.ledger, Op.MarkUncertain(x), now);
    RepliesShowRows(w.ledger, Op.MarkUncertain(x), now);
    InterleaveCons(w, Transact(c, now, Returns), []);
    assert [Transact(c, now, Returns)] + [] == [Transact(c, now, Returns)];
    InterleaveNothing(Next(w, Transact(c, now, Returns)));
  }

  /** An interruption from the dispatch on, up to the end of the gateway, still marks the attempt uncertain. */
  lemma InterruptedCallMarks(w: World, c: nat, now: nat)
    requires Safe(w) && c in w.calls && w.ledger.lastSeen <= now
    requires var pc := w.calls[c].pc;
      HoldsDispatch(pc) || pc.AwaitingGateway? || (pc.Observing? && pc.cause == AfterSuccess)
    requires var x := AttemptId(w.calls[c]); x in w.ledger.attempts && w.ledger.attempts[x].state == Dispatched
    ensures
      var v, x := Interleave(w, [Interrupt(c), Transact(c, now, Returns)]), AttemptId(w.calls[c]);
      && c in v.calls && v.calls[c].pc == Finished(Reraised) && v.starts == w.starts
      && x in v.ledger.attempts && v.ledger.attempts[x].state == Uncertain
  {
    hide Inv, Forest, Step, Interleave, Safe;
    SafeInv(w);
    InterleaveCons(w, Interrupt(c), [Transact(c, now, Returns)]);
    assert [Interrupt(c)] + [Transact(c, now, Returns)] == [Interrupt(c), Transact(c, now, Returns)];
    MarksUncertain(Next(w, Interrupt(c)), c, now);
  }

  /** The mark raised, committed or not, and the call goes on to look. */
  lemma MarkRaises(w: World, c: nat, now: nat, fate: Fate)
    requires Safe(w) && c in w.calls && w.calls[c].pc.Observing? && w.ledger.lastSeen <= now && !fate.Returns?
    requires w.calls[c].pc.step.MarkFirst? || w.calls[c].pc.step.MarkAgain?
    requires var x := AttemptId(w.calls[c]); x in w.ledger.attempts && w.ledger.attempts[x].state == Dispatched
    ensures Forest(w.ledger.attempts)
    ensures
      var next, x := Next(w, Transact(c, now, fate)), AttemptId(w.calls[c]);
      && c in next.calls && next.calls[c] == w.calls[c].(pc :=
           Observing(if w.calls[c].pc.step.MarkFirst? then LookFirst else LookAgain, w.calls[c].pc.cause))
      && next.ledger == if fate.RaisesBefore? then w.ledger else
           w.ledger.(lastSeen := now, attempts := w.ledger.attempts[x := w.ledger.attempts[x].(state := Uncertain)])
  {
    hide Inv, Forest, Step;
    InvIsForest(w.ledger);
    UncertainExactly(w.ledger, AttemptId(w.calls[c]), now);
  }

  /** A look shows the stored state, and ends the observation unless it is the first and shows a dispatched attempt. */
  lemma LookShows(w: World, c: nat, now: nat)
    requires Safe(w) && c in w.calls && w.calls[c].pc.Observing? && w.ledger.lastSeen <= now
    requires w.calls[c].pc.step.LookFirst? || w.calls[c].pc.step.LookAgain?
    requires AttemptId(w.calls[c]) in w.ledger.attempts
    ensures Forest(w.ledger.attempts)
    ensures
      var next, call := Next(w, Transact(c, now, Returns)), w.calls[c];
      var state := w.ledger.attempts[AttemptId(call)].state;
      && next.ledger == w.ledger.(lastSeen := now) && c in next.calls
      && next.calls[c] == call.(pc :=
           if call.pc.step.LookFirst? && state == Dispatched then Observing(MarkAgain, call.pc.cause)
           else Ending(call.pc.cause,
             if state == Dispatched then SawDispatched
             else if state == Uncertain then SawUncertain
             else if state == UsageUnknown then SawUsageUnknown
             else Unknown))
  {
    hide Inv, Forest, Step, Next, Safe;
    SafeInv(w);
    var x := AttemptId(w.calls[c]);
    Returned(w, c, now);
    LookUpExactly(w.ledger, x, now);
    RepliesShowRows(w.ledger, Op.GetAttempt(x), now);
  }

  /**
   Over a store that raises at both marks, the observation ends with the attempt uncertain and says so if either mark
   was committed; only if neither was, it ends with the attempt dispatched, and says so too.
   */
  lemma ObservationSurvivesFailures(w: World, c: nat, t: seq<nat>, first: Fate, second: Fate)
    requires Safe(w) && c in w.calls && w.calls[c].pc.Observing? && w.calls[c].pc.step == MarkFirst
    requires w.calls[c].pc.cause != AfterInterrupt && !first.Returns? && !second.Returns?
    requires |t| == 4 && w.ledger.lastSeen <= t[0] <= t[1] <= t[2] <= t[3]
    requires var x := AttemptId(w.calls[c]); x in w.ledger.attempts && w.ledger.attempts[x].state == Dispatched
    ensures
      var x, committed := AttemptId(w.calls[c]), first.RaisesAfter? || second.RaisesAfter?;
      var v := Interleave(w, [Transact(c, t[0], first), Transact(c, t[1], Returns)]
        + if first.RaisesAfter? then [] else [Transact(c, t[2], second), Transact(c, t[3], Returns)]);
      && c in v.calls && v.calls[c].pc == Finished(Evidence(if committed then SawUncertain else SawDispatched))
      && x in v.ledger.attempts && v.ledger.attempts[x].state == if committed then Uncertain else Dispatched
  {
    hide Inv, Forest, Step, Next, Interleave, Safe;
    var e0, e1, e2, e3 :=
      Transact(c, t[0], first), Transact(c, t[1], Returns), Transact(c, t[2], second), Transact(c, t[3], Returns);
    var rest := if first.RaisesAfter? then [] else [e2, e3];
    MarkRaises(w, c, t[0], first);
    InterleaveCons(w, e0, [e1] + rest);
    assert [e0] + ([e1] + rest) == [e0, e1] + rest;
    var w1 := Next(w, e0);
    LookShows(w1, c, t[1]);
    InterleaveCons(w1, e1, rest);
    var w2 := Next(w1, e1);
    if first.RaisesAfter? {
      InterleaveNothing(w2);
    } else {
      SecondObservation(w2, c, t[2], t[3], second);
    }
  }

  lemma SecondObservation(w: World, c: nat, marked: nat, looked: nat, fate: Fate)
    requires Safe(w) && c in w.calls && w.calls[c].pc.Observing? && w.calls[c].pc.step == MarkAgain
    requires w.calls[c].pc.cause != AfterInterrupt && !fate.Returns? && w.ledger.lastSeen <= marked <= looked
    requires var x := AttemptId(w.calls[c]); x in w.ledger.attempts && w.ledger.attempts[x].state == Dispatched
    ensures
      var x, v := AttemptId(w.calls[c]), Interleave(w, [Transact(c, marked, fate), Transact(c, looked, Returns)]);
      && c in v.calls
      && v.calls[c].pc == Finished(Evidence(if fate.RaisesAfter? then SawUncertain else SawDispatched))
      && x in v.ledger.attempts && v.ledger.attempts[x].state == if fate.RaisesAfter? then Uncertain else Dispatched
  {
    hide Inv, Forest, Step, Next, Interleave, Safe;
    var e0, e1 := Transact(c, marked, fate), Transact(c, looked, Returns);
    MarkRaises(w, c, marked, fate);
    InterleaveCons(w, e0, [e1]);
    assert [e0] + [e1] == [e0, e1];
    var w1 := Next(w, e0);
    LookShows(w1, c, looked);
    InterleaveCons(w1, e1, []);
    assert [e1] + [] == [e1];
    InterleaveNothing(Next(w1, e1));
  }

  /**
   A call whose dispatch mark raised looks what became of it: if its own intent was stored, it marks the attempt
   uncertain and says so; if another intent is, or the attempt has moved on, it says nothing. It never starts the
   gateway.
   */
  lemma RecoveryEnds(w: World, c: nat, t: seq<nat>)
    requires Safe(w) && c in w.calls && w.calls[c].pc == Recovering && |t| == 3
    requires w.ledger.lastSeen <= t[0] <= t[1] <= t[2]
    requires var x := AttemptId(w.calls[c]); x in w.ledger.attempts && w.ledger.attempts[x].state != Reserved
    ensures
      var x := AttemptId(w.calls[c]);
      var inFlight := w.ledger.attempts[x].state == Dispatched || w.ledger.attempts[x].state == Uncertain;
      var own := inFlight && x in w.ledger.intents && w.ledger.intents[x] == w.calls[c].approval.intent;
      var v := Interleave(w, [Transact(c, t[0], Returns)]
        + (if inFlight then [Transact(c, t[1], Returns)] else [])
        + if own then [Transact(c, t[2], Returns)] else []);
      && c in v.calls && v.calls[c].pc == Finished(Evidence(if own then SawUncertain else Unknown))
      && v.starts == w.starts && x in v.ledger.attempts
      && v.ledger.attempts[x].state == if own then Uncertain else w.ledger.attempts[x].state
  {
    hide Inv, Forest, Step, Next, Interleave, Safe;
    var x := AttemptId(w.calls[c]);
    var inFlight := w.ledger.attempts[x].state == Dispatched || w.ledger.attempts[x].state == Uncertain;
    var own := inFlight && x in w.ledger.intents && w.ledger.intents[x] == w.calls[c].approval.intent;
    var e0, e1, e2 := Transact(c, t[0], Returns), Transact(c, t[1], Returns), Transact(c, t[2], Returns);
    var rest := (if inFlight then [e1] else []) + if own then [e2] else [];
    RecoveryLooks(w, c, t[0]);
    InterleaveCons(w, e0, rest);
    assert [e0] + rest == [e0] + (if inFlight then [e1] else []) + if own then [e2] else [];
    if inFlight {
      RecoveredEnds(Next(w, e0), c, t[1], t[2]);
    } else {
      assert rest == [];
      InterleaveNothing(Next(w, e0));
    }
  }

  lemma RecoveryLooks(w: World, c: nat, now: nat)
    requires Safe(w) && c in w.calls && w.calls[c].pc == Recovering && w.ledger.lastSeen <= now
    requires var x := AttemptId(w.calls[c]); x in w.ledger.attempts && w.ledger.attempts[x].state != Reserved
    ensures Forest(w.ledger.attempts)
    ensures
      var next, call := Next(w, Transact(c, now, Returns)), w.calls[c];
      var state := w.ledger.attempts[AttemptId(call)].state;
      && next.ledger == w.ledger.(lastSeen := now) && next.starts == w.starts && c in next.calls
      && next.calls[c] == call.(pc :=
           if state == Dispatched || state == Uncertain then ComparingIntent else Finished(Evidence(Unknown)))
  {
    hide Inv, Forest, Step, Next, Safe;
    SafeInv(w);
    Returned(w, c, now);
    LookUpExactly(w.ledger, AttemptId(w.calls[c]), now);
    RepliesShowRows(w.ledger, Op.GetAttempt(AttemptId(w.calls[c])), now);
  }

  lemma RecoveredEnds(w: World, c: nat, compared: nat, marked: nat)
    requires Safe(w) && c in w.calls && w.calls[c].pc == ComparingIntent && w.ledger.lastSeen <= compared <= marked
    requires AttemptId(w.calls[c]) in w.ledger.attempts
    requires var state := w.ledger.attempts[AttemptId(w.calls[c])].state; state == Dispatched || state == Uncertain
    ensures
      var x := AttemptId(w.calls[c]);
      var own := x in w.ledger.intents && w.ledger.intents[x] == w.calls[c].approval.intent;
      var v := Interleave(w, [Transact(c, compared, Returns)] + if own then [Transact(c, marked, Returns)] else []);
      && c in v.calls && v.calls[c].pc == Finished(Evidence(if own then SawUncertain else Unknown))
      && v.starts == w.starts && x in v.ledger.attempts
      && v.ledger.attempts[x].state == if own then Uncertain else w.ledger.attempts[x].state
  {
    hide Inv, Forest, Step, Next, Interleave, Safe;
    var x := AttemptId(w.calls[c]);
    var own := x in w.ledger.intents && w.ledger.intents[x] == w.calls[c].approval.intent;
    var e1 := Transact(c, compared, Returns);
    ComparesIntent(w, c, compared);
    InterleaveCons(w, e1, if own then [Transact(c, marked, Returns)] else []);
    if own {
      MarksUncertain(Next(w, e1), c, marked);
    } else {
      InterleaveNothing(Next(w, e1));
    }
  }

  lemma ComparesIntent(w: World, c: nat, now: nat)
    requires Safe(w) && c in w.calls && w.calls[c].pc == ComparingIntent && w.ledger.lastSeen <= now
    ensures Forest(w.ledger.attempts)
    ensures
      var next, call := Next(w, Transact(c, now, Returns)), w.calls[c];
      var own := AttemptId(call) in w.ledger.intents && w.ledger.intents[AttemptId(call)] == call.approval.intent;
      && next.ledger == w.ledger.(lastSeen := now) && next.starts == w.starts && c in next.calls
      && next.calls[c] == call.(pc := if own then Observing(MarkFirst, AfterFailure) else Finished(Evidence(Unknown)))
  {
    hide Inv, Forest, Step, Next, Safe;
    SafeInv(w);
    Returned(w, c, now);
    IntentReply(w.ledger, AttemptId(w.calls[c]), now);
  }

  lemma IntentReply(l: Ledger, x: Id, now: nat)
    requires Inv(l) && Forest(l.attempts) && l.lastSeen <= now
    ensures Step(l, Op.GetIntent(x), now) ==
      (l.(lastSeen := now), if x in l.intents then Intended(l.intents[x]) else Denied(IntentNotFound))
  {
    hide Inv, Forest;
  }

  // ---------------------------------------------------------------- attempts that were there before

  /** The call is still to look its attempt up, or has ended without one. */
  ghost predicate LeavesAlone(w: World, c: nat) {
    && c in w.calls && AttemptId(w.calls[c]) in w.ledger.attempts
    && (w.calls[c].pc == LookUp || w.calls[c].pc == Finished(Refused) || w.calls[c].pc == Finished(Reraised))
    && (forall s :: s in w.starts ==> s.call != c)
    && !DispatchedItself(w, c)
  }

  lemma LookedUpIsRefused(call: LiveCall, seen: Option<Reply>, now: nat)
    requires call.pc == LookUp && seen != Some(Denied(AttemptNotFound))
    ensures After(call, seen, now) == Finished(Refused)
  {
  }

  lemma CommitShowsKnown(w: World, c: nat, now: nat, fate: Fate)
    requires Inv(w.ledger) && Forest(w.ledger.attempts) && c in w.calls && w.calls[c].pc == LookUp
    requires AttemptId(w.calls[c]) in w.ledger.attempts
    ensures NextOp(w.calls[c]) == Some(Op.GetAttempt(AttemptId(w.calls[c])))
    ensures Commit(w, ByCall(c), Op.GetAttempt(AttemptId(w.calls[c])), now, fate).1 != Some(Denied(AttemptNotFound))
  {
    hide Inv, Forest, Step;
    LookUpAnswers(w.ledger, AttemptId(w.calls[c]), now);
  }

  lemma TransactLeavesAlone(w: World, d: nat, now: nat, fate: Fate, c: nat)
    requires Safe(w) && LeavesAlone(w, c) && d in w.calls && NextOp(w.calls[d]).Some?
    ensures Forest(w.ledger.attempts) && LeavesAlone(Next(w, Transact(d, now, fate)), c)
  {
    hide Safe, Forest, Commit, After;
    SafeInv(w);
    KnownStays(w, Transact(d, now, fate), AttemptId(w.calls[c]));
    CommitRecords(w, ByCall(d), NextOp(w.calls[d]).value, now, fate);
    CommitKeepsRest(w, ByCall(d), NextOp(w.calls[d]).value, now, fate);
    if d == c {
      CommitShowsKnown(w, c, now, fate);
      LookedUpIsRefused(w.calls[c], Commit(w, ByCall(c), NextOp(w.calls[c]).value, now, fate).1, now);
    }
  }

  lemma CommitKeepsRest(w: World, who: Client, op: Op, now: nat, fate: Fate)
    requires Forest(w.ledger.attempts)
    ensures
      var after := Commit(w, who, op, now, fate).0;
      after == w.(ledger := after.ledger, dispatchedBy := after.dispatchedBy)
  {
    hide Step, Forest;
  }

  lemma NextLeavesAlone(w: World, e: Event, c: nat)
    requires Safe(w) && LeavesAlone(w, c)
    ensures Forest(w.ledger.attempts) && LeavesAlone(Next(w, e), c)
  {
    hide Safe, Forest, Commit, After;
    SafeInv(w);
    match e {
      case Transact(d, now, fate) =>
        if d in w.calls && NextOp(w.calls[d]).Some? {
          TransactLeavesAlone(w, d, now, fate, c);
        }
      case Other(op, now, fate) =>
        KnownStays(w, e, AttemptId(w.calls[c]));
        CommitRecords(w, ByOther, op, now, fate);
        CommitKeepsRest(w, ByOther, op, now, fate);
      case _ =>
    }
  }

  lemma LookUpAnswers(l: Ledger, x: Id, now: nat)
    requires Inv(l) && x in l.attempts && Forest(l.attempts)
    ensures Step(l, Op.GetAttempt(x), now).1 != Denied(AttemptNotFound)
  {
    hide Inv, Forest;
  }

  lemma KnownStays(w: World, e: Event, x: Id)
    requires Safe(w) && Forest(w.ledger.attempts) && x in w.ledger.attempts
    ensures x in Next(w, e).ledger.attempts
  {
    hide Safe, Forest, Step;
    SafeInv(w);
    if e.Other? {
      StepProgress(w.ledger, e.op, e.now);
    } else if e.Transact? && e.call in w.calls && NextOp(w.calls[e.call]).Some? {
      StepProgress(w.ledger, NextOp(w.calls[e.call]).value, e.now);
    }
  }

  /**
   Over every interleaving: a call whose attempt is stored before it looks it up never dispatches it and never starts
   the gateway, whoever stored it and whatever state it is in.
   */
  lemma {:induction false} StoredAttemptIsLeftAlone(w: World, events: seq<Event>, c: nat)
    requires Safe(w) && LeavesAlone(w, c)
    ensures LeavesAlone(Interleave(w, events), c)
    decreases |events|
  {
    hide Safe, LeavesAlone, Next, Forest;
    if events != [] {
      SafeIsForest(w);
      NextKeepsSafe(w, events[0]);
      NextLeavesAlone(w, events[0], c);
      StoredAttemptIsLeftAlone(Next(w, events[0]), events[1..], c);
    }
  }

  /** A call whose dispatch is denied gives its reservation back and ends refused. */
  lemma DeniedCallGivesBack(w: World, c: nat, t: seq<nat>)
    requires Safe(w) && c in w.calls && w.calls[c].pc == Marking && |t| == 3
    requires w.ledger.lastSeen <= t[0] <= t[1] <= t[2]
    requires Step(w.ledger, Op.MarkDispatched(AttemptId(w.calls[c]), Some(w.calls[c].approval), None), t[0]).1.Denied?
    requires var x := AttemptId(w.calls[c]);
      && x in w.ledger.attempts && w.ledger.attempts[x].state == Reserved
      && forall y :: y in w.ledger.attempts && y != x && Descends(w.ledger.attempts, y, x) ==>
           w.ledger.attempts[y].state == Released
    ensures
      var x := AttemptId(w.calls[c]);
      var v := Interleave(w, [Transact(c, t[0], Returns), Transact(c, t[1], Returns), Transact(c, t[2], Returns)]);
      && c in v.calls && v.calls[c].pc == Finished(Refused) && v.starts == w.starts
      && v.ledger == w.ledger.(lastSeen := t[2],
           attempts := w.ledger.attempts[x := w.ledger.attempts[x].(state := Released)])
  {
    hide Inv, Forest, Step, Next, Interleave, Safe;
    SafeInv(w);
    var call, x := w.calls[c], AttemptId(w.calls[c]);
    var e0, e1, e2 := Transact(c, t[0], Returns), Transact(c, t[1], Returns), Transact(c, t[2], Returns);
    Returned(w, c, t[0]);
    RefusalChangesOnlyTheClock(w.ledger, Op.MarkDispatched(x, Some(call.approval), None), t[0]);
    InterleaveCons(w, e0, [e1, e2]);
    assert [e0] + [e1, e2] == [e0, e1, e2];
    var w1 := Next(w, e0);
    SafeInv(w1);
    Returned(w1, c, t[1]);
    LookUpExactly(w1.ledger, x, t[1]);
    RepliesShowRows(w1.ledger, Op.GetAttempt(x), t[1]);
    InterleaveCons(w1, e1, [e2]);
    assert [e1] + [e2] == [e1, e2];
    var w2 := Next(w1, e1);
    SafeInv(w2);
    Returned(w2, c, t[2]);
    ReleaseGate(w2.ledger, x, t[2]);
    ReleaseFrees(w2.ledger, x, t[2]);
    InterleaveCons(w2, e2, []);
    assert [e2] + [] == [e2];
    InterleaveNothing(Next(w2, e2));
  }
}
