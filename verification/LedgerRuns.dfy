/** Runs: any sequence of calls, restarts included, with the log of dispatches they accepted. */
module LedgerRuns {
  import opened Common
  import opened BudgetTypes
  import opened AttemptForest
  import opened Sums
  import opened LedgerSpec
  import opened LedgerInvariant

  datatype Call = Call(op: Op, now: nat)

  /** The tables, and every attempt whose dispatch was accepted, in order. */
  datatype History = History(ledger: Ledger, log: seq<Id>)

  function Position(log: seq<Id>, x: Id): (i: nat)
    requires x in log
    ensures i < |log| && log[i] == x
    ensures forall j :: 0 <= j < i ==> log[j] != x
  {
    if log[0] == x then 0 else 1 + Position(log[1..], x)
  }

  lemma PositionKept(log: seq<Id>, x: Id, y: Id)
    requires x in log
    ensures Position(log + [y], x) == Position(log, x)
    ensures y !in log ==> Position(log + [y], y) == |log|
  {
    var more := log + [y];
    assert more[Position(log, x)] == x;
    assert more[|log|] == y;
  }

  ghost predicate LogMatches(t: Table, log: seq<Id>) {
    && Distinct(log)
    && forall x :: x in log <==> WasDispatched(t, x)
  }

  /** A prerequisite's source was dispatched before its consumer. */
  ghost predicate SourcesFirst(ps: map<Id, Prerequisite>, log: seq<Id>) {
    forall p :: p in ps && ps[p].consumedBy.Some? ==>
      && ps[p].source in log && ps[p].consumedBy.value in log
      && Position(log, ps[p].source) < Position(log, ps[p].consumedBy.value)
  }

  ghost predicate Sound(h: History) {
    && Inv(h.ledger)
    && LogMatches(h.ledger.attempts, h.log)
    && SourcesFirst(h.ledger.prerequisites, h.log)
  }

  ghost function Advance(h: History, c: Call): History
    requires Forest(h.ledger.attempts)
  {
    var (after, reply) := Step(h.ledger, c.op, c.now);
    History(after, if c.op.MarkDispatched? && reply.Accepted() then h.log + [c.op.id] else h.log)
  }

  // ---------------------------------------------------------------- the log

  /** No attempt became dispatched. */
  ghost predicate SameDispatched(t: Table, u: Table) {
    forall x :: WasDispatched(t, x) <==> WasDispatched(u, x)
  }

  /** No prerequisite was consumed. */
  ghost predicate SameConsumed(ps: map<Id, Prerequisite>, qs: map<Id, Prerequisite>) {
    && (forall p :: p in ps ==> p in qs && qs[p] == ps[p])
    && (forall p :: p in qs && p !in ps ==> qs[p].consumedBy.None?)
  }

  lemma DeniedDispatchIsNoChange(l: Ledger, x: Id, approval: Option<Approval>, claim: Option<Claim>)
    requires Forest(l.attempts) && !DispatchAction(l, x, approval, claim).1.Accepted()
    ensures DispatchAction(l, x, approval, claim).0 == l
  {
  }

  lemma ReserveDispatchesNothing(l: Ledger, q: Request, child: Option<Limits>)
    requires Forest(l.attempts)
    ensures SameDispatched(l.attempts, ReserveAction(l, q, child).0.attempts)
    ensures ReserveAction(l, q, child).0.prerequisites == l.prerequisites
  {
    hide ReserveDenial;
  }

  lemma ReconcileDispatchesNothing(l: Ledger, r: Receipt, establishes: Option<Claim>)
    ensures SameDispatched(l.attempts, ReconcileAction(l, r, establishes).0.attempts)
    ensures SameConsumed(l.prerequisites, ReconcileAction(l, r, establishes).0.prerequisites)
  {
  }

  lemma RowDispatchesNothing(t: Table, x: Id, row: Row)
    requires x in t && (row.state.EverDispatched() <==> t[x].state.EverDispatched())
    ensures SameDispatched(t, t[x := row])
  {
  }

  lemma UncertainDispatchesNothing(l: Ledger, x: Id)
    ensures SameDispatched(l.attempts, UncertainAction(l, x).0.attempts)
    ensures UncertainAction(l, x).0.prerequisites == l.prerequisites
  {
    hide SameDispatched;
    NothingDispatched(l.attempts);
    if UncertainAction(l, x).1.Attempted? {
      RowDispatchesNothing(l.attempts, x, WithState(l.attempts[x], Uncertain));
    }
  }

  lemma ReleaseDispatchesNothing(l: Ledger, x: Id)
    requires Forest(l.attempts)
    ensures SameDispatched(l.attempts, ReleaseAction(l, x).0.attempts)
    ensures ReleaseAction(l, x).0.prerequisites == l.prerequisites
  {
    hide SameDispatched, HasLiveDescendant, Forest;
    NothingDispatched(l.attempts);
    if ReleaseAction(l, x).1.Attempted? {
      RowDispatchesNothing(l.attempts, x, WithState(l.attempts[x], Released));
    }
  }

  lemma UpdatesDispatchNothing(t: Table)
    ensures SameDispatched(t, CancelTable(t)) && SameDispatched(t, RecoverTable(t))
  {
  }

  lemma OnlyDispatchDispatches(l: Ledger, op: Op)
    requires Inv(l) && (op.MarkDispatched? ==> !Action(l, op).1.Accepted())
    ensures SameDispatched(l.attempts, Action(l, op).0.attempts)
    ensures SameConsumed(l.prerequisites, Action(l, op).0.prerequisites)
  {
    hide Caps, Receipts, Grants, Narrow, Fanout, Shallow, ReleasedClosed, Shaped, SameDispatched, SnapshotOf,
      RemainingAction, DispatchAction, ReserveAction, ReconcileAction, UncertainAction, ReleaseAction, CancelTable,
      RecoverTable;
    NothingDispatched(l.attempts);
    match op {
      case MarkDispatched(x, approval, claim) => DeniedDispatchIsNoChange(l, x, approval, claim);
      case Reserve(q, child) => ReserveDispatchesNothing(l, q, child);
      case Reconcile(r, establishes) => ReconcileDispatchesNothing(l, r, establishes);
      case RemainingElapsed(x) => RemainingIsReadOnly(l, x);
      case MarkUncertain(x) => UncertainDispatchesNothing(l, x);
      case Release(x) => ReleaseDispatchesNothing(l, x);
      case Cancel => UpdatesDispatchNothing(l.attempts);
      case Reopen(_) => UpdatesDispatchNothing(l.attempts);
      case _ =>
    }
  }

  lemma NothingDispatched(t: Table)
    ensures SameDispatched(t, t)
  {
  }

  lemma DispatchLogs(l: Ledger, x: Id, approval: Option<Approval>, claim: Option<Claim>, log: seq<Id>)
    requires LogMatches(l.attempts, log) && x in l.attempts && l.attempts[x].state.Reserved?
    ensures LogMatches(Dispatch(l, x, approval, claim).attempts, log + [x])
  {
    var u := Dispatch(l, x, approval, claim).attempts;
    assert x !in log;
    forall y ensures y in log + [x] <==> WasDispatched(u, y) {
      assert y in log <==> WasDispatched(l.attempts, y);
    }
  }

  lemma DispatchKeepsSourcesFirst(l: Ledger, x: Id, claim: Option<Claim>, log: seq<Id>)
    requires Shaped(l.attempts) && PrerequisitesUsed(l.attempts, l.prerequisites)
    requires LogMatches(l.attempts, log) && SourcesFirst(l.prerequisites, log)
    requires x in l.attempts && l.attempts[x].state.Reserved? && ClaimDenial(l, claim).None?
    ensures SourcesFirst(Consume(l.prerequisites, claim, x), log + [x])
  {
    var ps, qs := l.prerequisites, Consume(l.prerequisites, claim, x);
    assert x !in log;
    forall p | p in qs && qs[p].consumedBy.Some?
      ensures qs[p].source in log + [x] && qs[p].consumedBy.value in log + [x]
      ensures Position(log + [x], qs[p].source) < Position(log + [x], qs[p].consumedBy.value)
    {
      assert WasCompleted(l.attempts, ps[p].source);
      assert WasDispatched(l.attempts, ps[p].source);
      PositionKept(log, ps[p].source, x);
      if ps[p].consumedBy.Some? {
        PositionKept(log, ps[p].consumedBy.value, x);
      }
    }
  }

  lemma AcceptedDispatch(l: Ledger, x: Id, approval: Option<Approval>, claim: Option<Claim>)
    requires Forest(l.attempts) && DispatchAction(l, x, approval, claim).1.Accepted()
    ensures x in l.attempts && l.attempts[x].state.Reserved? && !l.cancelled
    ensures ClaimDenial(l, claim).None?
    ensures approval.Some? ==>
      && approval.value.receipt !in l.approvals
      && approval.value.intent.issuedAt <= l.lastSeen < approval.value.intent.expiresAt
    ensures DispatchAction(l, x, approval, claim).0 == Dispatch(l, x, approval, claim)
  {
  }

  lemma SameLogSound(l: Ledger, k: Ledger, log: seq<Id>)
    requires LogMatches(l.attempts, log) && SourcesFirst(l.prerequisites, log)
    requires SameDispatched(l.attempts, k.attempts) && SameConsumed(l.prerequisites, k.prerequisites)
    ensures LogMatches(k.attempts, log) && SourcesFirst(k.prerequisites, log)
  {
  }

  lemma AdvanceKeepsSound(h: History, c: Call)
    requires Sound(h)
    ensures Sound(Advance(h, c))
  {
    hide Caps, Receipts, Narrow, Fanout, Shallow, ReleasedClosed, LogMatches, SourcesFirst, PrerequisitesOnce,
      ApprovalsOnce, ApprovalsUsed, PrerequisitesUsed, Shaped, ClaimDenial, Action, SameDispatched, SameConsumed;
    StepKeepsInv(h.ledger, c.op, c.now);
    if c.now >= h.ledger.lastSeen && WellFormed(c.op) {
      var l := h.ledger.(lastSeen := c.now);
      TickKeepsInv(h.ledger, c.now);
      if c.op.MarkDispatched? && Action(l, c.op).1.Accepted() {
        DispatchSound(l, c.op, h.log);
      } else {
        OnlyDispatchDispatches(l, c.op);
        SameLogSound(l, Action(l, c.op).0, h.log);
      }
    }
  }

  lemma DispatchSound(l: Ledger, op: Op, log: seq<Id>)
    requires Inv(l) && LogMatches(l.attempts, log) && SourcesFirst(l.prerequisites, log)
    requires op.MarkDispatched? && Action(l, op).1.Accepted()
    ensures LogMatches(Action(l, op).0.attempts, log + [op.id])
    ensures SourcesFirst(Action(l, op).0.prerequisites, log + [op.id])
  {
    hide Caps, Receipts, Narrow, Fanout, Shallow, ReleasedClosed, LogMatches, SourcesFirst, PrerequisitesOnce,
      ApprovalsOnce, ApprovalsUsed, PrerequisitesUsed, Shaped, ClaimDenial, DispatchDenial;
    AcceptedDispatch(l, op.id, op.approval, op.claim);
    DispatchLogs(l, op.id, op.approval, op.claim, log);
    DispatchKeepsSourcesFirst(l, op.id, op.claim, log);
  }

  // ---------------------------------------------------------------- runs

  ghost function Run(h: History, calls: seq<Call>): (after: History)
    requires Sound(h)
    ensures Sound(after)
    decreases |calls|
  {
    if calls == [] then h
    else
      AdvanceKeepsSound(h, calls[0]);
      Run(Advance(h, calls[0]), calls[1..])
  }

  ghost function Replies(h: History, calls: seq<Call>): (rs: seq<Reply>)
    requires Sound(h)
    ensures |rs| == |calls|
    decreases |calls|
  {
    if calls == [] then []
    else
      AdvanceKeepsSound(h, calls[0]);
      [Step(h.ledger, calls[0].op, calls[0].now).1] + Replies(Advance(h, calls[0]), calls[1..])
  }

  ghost function Start(policy: Policy, now: nat): (h: History)
    ensures Sound(h)
  {
    FreshInv(policy, now);
    History(Fresh(policy, now), [])
  }

  lemma RunCons(h: History, c: Call, rest: seq<Call>)
    requires Sound(h)
    ensures Sound(Advance(h, c))
    ensures Run(h, [c] + rest) == Run(Advance(h, c), rest)
    ensures Replies(h, [c] + rest) == [Step(h.ledger, c.op, c.now).1] + Replies(Advance(h, c), rest)
  {
    hide Caps, Receipts, Grants, Narrow, Fanout, Shallow, ReleasedClosed, Shaped, LogMatches, SourcesFirst, Step;
    AdvanceKeepsSound(h, c);
    assert ([c] + rest)[1..] == rest;
  }

  lemma {:induction false} RunConcat(h: History, first: seq<Call>, second: seq<Call>)
    requires Sound(h)
    ensures Run(h, first + second) == Run(Run(h, first), second)
    ensures Replies(h, first + second) == Replies(h, first) + Replies(Run(h, first), second)
    decreases |first|
  {
    hide Caps, Receipts, Grants, Narrow, Fanout, Shallow, ReleasedClosed, Shaped, LogMatches, SourcesFirst, Step;
    if first == [] {
      assert first + second == second;
    } else {
      AdvanceKeepsSound(h, first[0]);
      assert (first + second)[1..] == first[1..] + second;
      RunConcat(Advance(h, first[0]), first[1..], second);
    }
  }

  // ---------------------------------------------------------------- what only grows

  ghost predicate PrerequisitesGrow(ps: map<Id, Prerequisite>, qs: map<Id, Prerequisite>) {
    forall p :: p in ps ==>
      && p in qs
      && qs[p].source == ps[p].source && qs[p].payload == ps[p].payload
      && Keeps(ps[p].consumedBy, qs[p].consumedBy)
  }

  ghost predicate Extends<K, V>(m: map<K, V>, n: map<K, V>) {
    forall k :: k in m ==> k in n && n[k] == m[k]
  }

  /** After cancellation nothing is admitted, reserved or newly dispatched, and activity only ends. */
  ghost predicate WindsDown(t: Table, u: Table) {
    && u.Keys <= t.Keys
    && forall x :: x in u ==>
         && !u[x].state.Reserved?
         && (u[x].state.Active() ==> t[x].state.Active())
         && (u[x].state.EverDispatched() ==> t[x].state.EverDispatched())
  }

  ghost predicate Progress(l: Ledger, k: Ledger) {
    && PolicyOf(k) == PolicyOf(l) && k.started == l.started && l.lastSeen <= k.lastSeen
    && (l.cancelled ==> k.cancelled)
    && TableEvolves(l.attempts, k.attempts)
    && Extends(l.receipts, k.receipts)
    && Extends(l.approvals, k.approvals)
    && Extends(l.intents, k.intents)
    && PrerequisitesGrow(l.prerequisites, k.prerequisites)
    && (l.cancelled ==> WindsDown(l.attempts, k.attempts))
  }

  lemma {:induction false} ProgressTransitive(a: Ledger, b: Ledger, c: Ledger)
    requires Progress(a, b) && Progress(b, c)
    ensures Progress(a, c)
  {
    EvolvesTransitive(a.attempts, b.attempts, c.attempts);
  }

  lemma EvolvesTransitive(t: Table, u: Table, v: Table)
    requires TableEvolves(t, u) && TableEvolves(u, v)
    ensures TableEvolves(t, v)
  {
    forall x | x in t ensures x in v && RowEvolves(t[x], v[x]) {
      assert RowEvolves(t[x], u[x]) && RowEvolves(u[x], v[x]);
    }
  }

  lemma RewriteWindsDown(t: Table, u: Table)
    requires Rewrites(t, u) && forall x :: x in t ==> !t[x].state.Reserved?
    ensures WindsDown(t, u)
  {
    forall x | x in u
      ensures !u[x].state.Reserved?
      ensures u[x].state.Active() ==> t[x].state.Active()
      ensures u[x].state.EverDispatched() ==> t[x].state.EverDispatched()
    {
      assert RowEvolves(t[x], u[x]);
    }
  }

  /** Rewriting rows is progress if the other tables grow. */
  lemma RewriteProgress(l: Ledger, k: Ledger)
    requires Forest(l.attempts) && ReleasedClosed(l) && Rewrites(l.attempts, k.attempts)
    requires PolicyOf(k) == PolicyOf(l) && k.started == l.started && l.lastSeen == k.lastSeen
    requires l.cancelled ==> k.cancelled
    requires Extends(l.receipts, k.receipts) && Extends(l.approvals, k.approvals) && Extends(l.intents, k.intents)
    requires PrerequisitesGrow(l.prerequisites, k.prerequisites)
    ensures Progress(l, k)
  {
    hide Shaped, TableEvolves, SameSkeleton, WindsDown, Extends, PrerequisitesGrow;
    if l.cancelled {
      RewriteWindsDown(l.attempts, k.attempts);
    }
  }

  lemma NoChangeProgress(l: Ledger)
    requires Inv(l)
    ensures Progress(l, l)
  {
    hide Caps, Receipts, Grants, Narrow, Fanout, Shallow, ReleasedClosed, Rewrites;
    NoRewrite(l.attempts);
    RewriteProgress(l, l);
  }

  lemma AdmissionProgress(l: Ledger, q: Request, child: Option<Limits>)
    requires q.id !in l.attempts && (q.parent.Some? ==> q.parent.value in l.attempts) && !l.cancelled
    ensures Progress(l, Admitted(l, q, child))
  {
  }

  lemma ReserveProgress(l: Ledger, q: Request, child: Option<Limits>)
    requires Inv(l)
    ensures Progress(l, ReserveAction(l, q, child).0)
  {
    hide Caps, Receipts, Grants, Narrow, Fanout, Shallow, ReleasedClosed, Shaped, OverdrawnBy, Progress;
    NoChangeProgress(l);
    if q.id !in l.attempts && ReserveDenial(l, q, child).None? {
      AdmissionFacts(l, q, child);
      AdmissionProgress(l, q, child);
    }
  }

  lemma ConsumeGrows(l: Ledger, x: Id, claim: Option<Claim>)
    requires ClaimDenial(l, claim).None?
    ensures PrerequisitesGrow(l.prerequisites, Consume(l.prerequisites, claim, x))
  {
  }

  lemma DispatchProgress(l: Ledger, x: Id, approval: Option<Approval>, claim: Option<Claim>)
    requires Inv(l)
    ensures Progress(l, DispatchAction(l, x, approval, claim).0)
  {
    hide Caps, Receipts, Narrow, Fanout, Shallow, ReleasedClosed, WalkDenial, ClaimDenial, Rewrites, Grants, Progress,
      PrerequisitesGrow, DispatchDenial, Shaped, Consume;
    NoChangeProgress(l);
    if DispatchAction(l, x, approval, claim).1.Accepted() {
      AcceptedDispatch(l, x, approval, claim);
      ReservedHasNoGrants(l, x);
      DispatchedRowEvolves(l.attempts, x);
      ConsumeGrows(l, x, claim);
      RewriteProgress(l, Dispatch(l, x, approval, claim));
    }
  }

  lemma EstablishGrows(ps: map<Id, Prerequisite>, claim: Option<Claim>, source: Id)
    ensures PrerequisitesGrow(ps, ps) && PrerequisitesGrow(ps, Establish(ps, claim, source))
  {
  }

  lemma ReconcileProgress(l: Ledger, r: Receipt, establishes: Option<Claim>)
    requires Inv(l)
    ensures Progress(l, ReconcileAction(l, r, establishes).0)
  {
    hide Caps, Receipts, Narrow, Fanout, Shallow, ReleasedClosed, Rewrites, Grants, Shaped, ReconcileDenial, Progress,
      Matches, Establish, PrerequisitesGrow, Forest;
    EstablishGrows(l.prerequisites, establishes, r.attempt);
    ReconcileRewrites(l, r, establishes);
    RewriteProgress(l, ReconcileAction(l, r, establishes).0);
  }

  lemma OtherProgress(l: Ledger, op: Op)
    requires Inv(l) && !op.Reserve? && !op.MarkDispatched? && !op.Reconcile?
    ensures Progress(l, Action(l, op).0)
  {
    hide Caps, Receipts, Grants, Narrow, Fanout, Shallow, ReleasedClosed, SnapshotOf, Rewrites, Shaped, Progress;
    RowsEvolve(l, op);
    RewriteProgress(l, Action(l, op).0);
  }

  lemma StepProgress(l: Ledger, op: Op, now: nat)
    requires Inv(l)
    ensures Progress(l, Step(l, op, now).0)
  {
    hide Caps, Receipts, Grants, Narrow, Fanout, Shallow, Action;
    if l.lastSeen <= now && WellFormed(op) {
      var k := l.(lastSeen := now);
      TickKeepsInv(l, now);
      assert Progress(l, k);
      ActionProgress(k, op);
      ProgressTransitive(l, k, Action(k, op).0);
    }
  }

  lemma ActionProgress(l: Ledger, op: Op)
    requires Inv(l)
    ensures Progress(l, Action(l, op).0)
  {
    hide Caps, Receipts, Grants, Narrow, Fanout, Shallow, ReserveAction, DispatchAction, ReconcileAction, Progress;
    match op {
      case Reserve(q, child) => ReserveProgress(l, q, child);
      case MarkDispatched(x, approval, claim) => DispatchProgress(l, x, approval, claim);
      case Reconcile(r, establishes) => ReconcileProgress(l, r, establishes);
      case _ => OtherProgress(l, op);
    }
  }

  /** Knowledge only grows over any run, and after cancellation the engagement only winds down. */
  lemma {:induction false} RunProgress(h: History, calls: seq<Call>)
    requires Sound(h)
    ensures Progress(h.ledger, Run(h, calls).ledger)
    ensures h.log <= Run(h, calls).log
    decreases |calls|
  {
    hide Caps, Receipts, Grants, Narrow, Fanout, Shallow, LogMatches, SourcesFirst, Step;
    if calls == [] {
      assert Progress(h.ledger, h.ledger);
    } else {
      var next := Advance(h, calls[0]);
      AdvanceKeepsSound(h, calls[0]);
      StepProgress(h.ledger, calls[0].op, calls[0].now);
      RunProgress(next, calls[1..]);
      ProgressTransitive(h.ledger, next.ledger, Run(next, calls[1..]).ledger);
    }
  }
}
