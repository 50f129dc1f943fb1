/** Restart transparency: reopening the ledger anywhere in a run is invisible but for the dispatched label. */
module LedgerRestart {
  import opened Common
  import opened BudgetTypes
  import opened AttemptForest
  import opened Sums
  import opened LedgerSpec
  import opened LedgerInvariant
  import opened LedgerRuns

  function BlurState(s: State): State {
    if s.Dispatched? then Uncertain else s
  }

  /** The row with the label that does not tell dispatched from uncertain. */
  function Relabel(row: Row): Row {
    row.(state := BlurState(row.state))
  }

  function Relabelled(t: Table): Table {
    map x | x in t :: Relabel(t[x])
  }

  function Blur(l: Ledger): Ledger {
    l.(attempts := Relabelled(l.attempts))
  }

  /** What reopening does: the rows in flight become uncertain, and nothing else changes but the clock. */
  lemma ReopenRecovers(l: Ledger, policy: Policy, now: nat)
    requires Inv(l)
    ensures Step(l, Reopen(policy), now).1.Accepted() <==>
      policy.limits == l.policy && policy.terms == l.terms && l.lastSeen <= now
    ensures Step(l, Reopen(policy), now).1.Accepted() ==>
      var k := Step(l, Reopen(policy), now).0;
      && k == l.(lastSeen := now, attempts := k.attempts)
      && k.attempts.Keys == l.attempts.Keys
      && forall x :: x in l.attempts ==>
           && !k.attempts[x].state.Dispatched?
           && k.attempts[x] == l.attempts[x].(
                state := if l.attempts[x].state.Dispatched? then Uncertain else l.attempts[x].state)
  {
    hide Caps, Receipts, Grants, Narrow, Fanout, Shallow, ReleasedClosed, Shaped;
  }

  lemma RecoveryRelabels(t: Table)
    ensures RecoverTable(t) == Relabelled(t)
  {
  }

  function BlurReply(r: Reply): Reply {
    match r
    case Attempted(a) => Attempted(a.(state := BlurState(a.state)))
    case _ => r
  }

  // ---------------------------------------------------------------- tables

  lemma BlurRows(t: Table)
    ensures Relabelled(t).Keys == t.Keys
    ensures forall x :: x in t ==> Relabelled(t)[x] == Relabel(t[x])
  {
  }

  lemma BlurRow(t: Table, x: Id)
    ensures x in Relabelled(t) <==> x in t
    ensures x in t ==> Relabelled(t)[x] == Relabel(t[x])
  {
  }

  lemma BlurSkeleton(t: Table)
    requires Forest(t)
    ensures SameSkeleton(t, Relabelled(t)) && Forest(Relabelled(t))
    ensures forall p :: Children(Relabelled(t), p) == Children(t, p)
  {
    SkeletonKeepsForest(t, Relabelled(t));
  }

  lemma BlurChildren(t: Table, p: Id)
    ensures Children(Relabelled(t), p) == Children(t, p)
  {
  }

  lemma BlurForest(t: Table)
    requires Forest(t)
    ensures Forest(Relabelled(t))
  {
    BlurSkeleton(t);
  }

  lemma BlurSum(c: Column, t: Table, ids: set<Id>)
    requires ids <= t.Keys
    ensures ids <= Relabelled(t).Keys && Sum(c, Relabelled(t), ids) == Sum(c, t, ids)
  {
    SumPointwise(c, t, Relabelled(t), ids);
  }

  lemma BlurWithin(t: Table, ids: set<Id>, limits: Limits)
    requires ids <= t.Keys
    ensures ids <= Relabelled(t).Keys && Within(Relabelled(t), ids, limits) == Within(t, ids, limits)
  {
    forall m: Meter ensures Sum(Charged(m), Relabelled(t), ids) == Sum(Charged(m), t, ids) {
      BlurSum(Charged(m), t, ids);
    }
  }

  lemma BlurInsert(t: Table, x: Id, row: Row)
    ensures Relabelled(t[x := row]) == Relabelled(t)[x := Relabel(row)]
  {
  }

  lemma BlurTwice(t: Table)
    ensures Relabelled(Relabelled(t)) == Relabelled(t)
  {
  }

  /** Writing rows that blur alike into a table and into its blur gives tables that blur alike. */
  lemma BlurUpdate(t: Table, x: Id, row: Row, blurred: Row)
    requires Relabel(blurred) == Relabel(row)
    ensures Relabelled(Relabelled(t)[x := blurred]) == Relabelled(t[x := row])
  {
  }

  // ---------------------------------------------------------------- reserve

  lemma BlurSubtreeWithin(t: Table, a: Id, limits: Limits)
    requires Forest(t)
    ensures Forest(Relabelled(t))
    ensures Within(Relabelled(t), Subtree(Relabelled(t), a), limits) == Within(t, Subtree(t, a), limits)
  {
    hide Within;
    BlurSkeleton(t);
    SkeletonKeepsSubtree(t, Relabelled(t), a);
    BlurWithin(t, Subtree(t, a), limits);
  }

  lemma BlurAdmitted(l: Ledger, q: Request, child: Option<Limits>)
    requires Forest(l.attempts) && q.id !in l.attempts && (q.parent.Some? ==> q.parent.value in l.attempts)
    ensures q.parent.Some? ==> q.parent.value in Blur(l).attempts
    ensures Admitted(Blur(l), q, child).attempts == Relabelled(Admitted(l, q, child).attempts)
    ensures Inserts(l.attempts, Admitted(l, q, child).attempts, q.id)
  {
    BlurEffective(l, q.parent, child);
    InsertIsForest(l, q, child);
    BlurInsert(l.attempts, q.id, NewRow(l, q, child));
  }

  lemma BlurOverdrawn(l: Ledger, q: Request, child: Option<Limits>)
    requires Forest(l.attempts) && q.id !in l.attempts && (q.parent.Some? ==> q.parent.value in l.attempts)
    ensures Forest(Blur(l).attempts)
    ensures OverdrawnBy(Blur(l), q, child) == OverdrawnBy(l, q, child)
  {
    hide Within, Relabelled, NewRow, Forest, Above;
    var k := Blur(l);
    BlurForest(l.attempts);
    BlurRows(l.attempts);
    BlurAdmitted(l, q, child);
    var t, u := Admitted(l, q, child).attempts, Admitted(k, q, child).attempts;
    BlurForest(t);
    BlurRows(t);
    BlurEffective(l, q.parent, child);
    BlurWithin(t, t.Keys, l.policy);
    BlurWithin(t, {q.id}, t[q.id].limits);
    forall a | a in l.attempts
      ensures Above(k.attempts, q.parent, a) == Above(l.attempts, q.parent, a)
      ensures Within(u, Subtree(u, a), k.attempts[a].limits) == Within(t, Subtree(t, a), l.attempts[a].limits)
    {
      BlurAbove(l.attempts, q.parent, a);
      BlurSubtreeWithin(t, a, l.attempts[a].limits);
    }
  }

  lemma BlurAbove(t: Table, parent: Option<Id>, a: Id)
    requires Forest(t) && (parent.Some? ==> parent.value in t)
    ensures Forest(Relabelled(t))
    ensures Above(Relabelled(t), parent, a) == Above(t, parent, a)
  {
    BlurSkeleton(t);
    if parent.Some? {
      SkeletonKeepsDescends(t, Relabelled(t), parent.value, a);
    }
  }

  lemma BlurAncestors(t: Table, parent: Option<Id>, depth: nat, elapsed: int)
    requires Forest(t) && (parent.Some? ==> parent.value in t)
    ensures Forest(Relabelled(t)) && (parent.Some? ==> parent.value in Relabelled(t))
    ensures ReleasedAbove(Relabelled(t), parent) == ReleasedAbove(t, parent)
    ensures TooDeepFor(Relabelled(t), parent, depth) == TooDeepFor(t, parent, depth)
    ensures LateAbove(Relabelled(t), parent, elapsed) == LateAbove(t, parent, elapsed)
  {
    hide Relabelled, Above;
    BlurRows(t);
    BlurSkeleton(t);
    forall a | a in t ensures Above(Relabelled(t), parent, a) == Above(t, parent, a) {
      BlurAbove(t, parent, a);
    }
  }

  lemma BlurReserveDenial(l: Ledger, q: Request, child: Option<Limits>)
    requires Forest(l.attempts) && q.id !in l.attempts
    ensures Forest(Blur(l).attempts) && q.id !in Blur(l).attempts
    ensures ReserveDenial(Blur(l), q, child) == ReserveDenial(l, q, child)
  {
    hide OverdrawnBy, Relabelled, ReleasedAbove, TooDeepFor, LateAbove, Children, NewRow, Inherited, Forest;
    BlurRow(l.attempts, q.id);
    BlurForest(l.attempts);
    if q.parent.Some? {
      BlurRow(l.attempts, q.parent.value);
      BlurChildren(l.attempts, q.parent.value);
    }
    if q.parent.Some? ==> q.parent.value in l.attempts {
      BlurEffective(l, q.parent, child);
      BlurOverdrawn(l, q, child);
      BlurAncestors(l.attempts, q.parent, NewRow(l, q, child).depth, Elapsed(l));
    }
  }

  /** The two ledgers are the same up to the dispatched label, and so are the two replies. */
  ghost predicate SameOutcome(a: (Ledger, Reply), b: (Ledger, Reply)) {
    Blur(a.0) == Blur(b.0) && BlurReply(a.1) == BlurReply(b.1)
  }

  lemma BlurEffective(l: Ledger, parent: Option<Id>, child: Option<Limits>)
    requires parent.Some? ==> parent.value in l.attempts
    ensures parent.Some? ==> parent.value in Blur(l).attempts
    ensures Effective(Blur(l), parent, child) == Effective(l, parent, child)
    ensures Inherited(Blur(l), parent) == Inherited(l, parent)
    ensures forall q: Request | q.parent == parent :: NewRow(Blur(l), q, child) == NewRow(l, q, child)
  {
  }

  lemma BlurReserveReplay(l: Ledger, q: Request, child: Option<Limits>)
    requires Forest(l.attempts) && q.id in l.attempts
    ensures Forest(Blur(l).attempts)
    ensures SameOutcome(ReserveAction(Blur(l), q, child), ReserveAction(l, q, child))
  {
    hide Relabelled, Forest, Effective, ReserveDenial;
    BlurRow(l.attempts, q.id);
    BlurForest(l.attempts);
    BlurTwice(l.attempts);
    ParentStored(l.attempts, q.id);
    BlurEffective(l, l.attempts[q.id].request.parent, child);
  }

  lemma BlurReserve(l: Ledger, q: Request, child: Option<Limits>)
    requires Forest(l.attempts)
    ensures Forest(Blur(l).attempts)
    ensures SameOutcome(ReserveAction(Blur(l), q, child), ReserveAction(l, q, child))
  {
    hide ReserveDenial, Relabelled, Forest, Effective, NewRow;
    if q.id in l.attempts {
      BlurReserveReplay(l, q, child);
    } else {
      BlurRow(l.attempts, q.id);
      BlurForest(l.attempts);
      BlurTwice(l.attempts);
      BlurReserveDenial(l, q, child);
      if ReserveDenial(l, q, child).None? {
        BlurEffective(l, q.parent, child);
        BlurUpdate(l.attempts, q.id, NewRow(l, q, child), NewRow(l, q, child));
      }
    }
  }

  // ---------------------------------------------------------------- the other operations

  lemma {:induction false} BlurWalk(t: Table, x: Id, elapsed: int)
    requires Forest(t) && x in t
    ensures Forest(Relabelled(t))
    ensures WalkDenial(Relabelled(t), x, elapsed) == WalkDenial(t, x, elapsed)
    decreases t[x].depth
  {
    BlurSkeleton(t);
    if t[x].request.parent.Some? {
      BlurWalk(t, t[x].request.parent.value, elapsed);
    }
  }

  lemma {:induction false} BlurRemaining(t: Table, x: Id, elapsed: int, sofar: int)
    requires Forest(t) && x in t
    ensures Forest(Relabelled(t))
    ensures ChainRemaining(Relabelled(t), x, elapsed, sofar) == ChainRemaining(t, x, elapsed, sofar)
    decreases t[x].depth
  {
    BlurSkeleton(t);
    var own := t[x].limits.maxElapsed - elapsed;
    if t[x].request.parent.Some? {
      BlurRemaining(t, t[x].request.parent.value, elapsed, if own < sofar then own else sofar);
    }
  }

  lemma BlurDispatchDenial(l: Ledger, x: Id, approval: Option<Approval>, claim: Option<Claim>)
    requires Forest(l.attempts)
    ensures Forest(Blur(l).attempts)
    ensures DispatchDenial(Blur(l), x, approval, claim) == DispatchDenial(l, x, approval, claim)
  {
    hide WalkDenial, Relabelled, Forest;
    BlurRow(l.attempts, x);
    BlurForest(l.attempts);
    if x in l.attempts {
      BlurWalk(l.attempts, x, Elapsed(l));
    }
  }

  lemma BlurDispatch(l: Ledger, x: Id, approval: Option<Approval>, claim: Option<Claim>)
    requires Forest(l.attempts)
    ensures Forest(Blur(l).attempts)
    ensures SameOutcome(DispatchAction(Blur(l), x, approval, claim), DispatchAction(l, x, approval, claim))
  {
    hide DispatchDenial, Relabelled, Forest, Consume;
    BlurRow(l.attempts, x);
    BlurForest(l.attempts);
    BlurTwice(l.attempts);
    BlurDispatchDenial(l, x, approval, claim);
    if x in l.attempts {
      BlurUpdate(l.attempts, x, WithState(l.attempts[x], Dispatched), WithState(Blur(l).attempts[x], Dispatched));
    }
  }

  lemma BlurLiveDescendant(t: Table, x: Id)
    requires Forest(t)
    ensures Forest(Relabelled(t))
    ensures HasLiveDescendant(Relabelled(t), x) == HasLiveDescendant(t, x)
  {
    hide Relabelled;
    BlurRows(t);
    BlurSkeleton(t);
    forall y | y in t ensures Descends(Relabelled(t), y, x) == Descends(t, y, x) {
      SkeletonKeepsDescends(t, Relabelled(t), y, x);
    }
  }

  lemma BlurRelease(l: Ledger, x: Id)
    requires Forest(l.attempts)
    ensures Forest(Blur(l).attempts)
    ensures SameOutcome(ReleaseAction(Blur(l), x), ReleaseAction(l, x))
  {
    hide Relabelled, HasLiveDescendant, Forest;
    BlurRow(l.attempts, x);
    BlurTwice(l.attempts);
    BlurLiveDescendant(l.attempts, x);
    if x in l.attempts {
      BlurUpdate(l.attempts, x, WithState(l.attempts[x], Released), WithState(Blur(l).attempts[x], Released));
    }
  }

  lemma BlurReconcileDenial(l: Ledger, r: Receipt, establishes: Option<Claim>)
    ensures ReconcileDenial(Blur(l), r, establishes) == ReconcileDenial(l, r, establishes)
  {
    hide Relabelled, HasPrerequisite;
    BlurRow(l.attempts, r.attempt);
  }

  lemma BlurReconcile(l: Ledger, r: Receipt, establishes: Option<Claim>)
    ensures SameOutcome(ReconcileAction(Blur(l), r, establishes), ReconcileAction(l, r, establishes))
  {
    hide Relabelled, ReconcileDenial, Establish;
    BlurRow(l.attempts, r.attempt);
    BlurTwice(l.attempts);
    BlurReconcileDenial(l, r, establishes);
    if r.attempt in l.attempts {
      var row, blurred := l.attempts[r.attempt], Blur(l).attempts[r.attempt];
      BlurUpdate(l.attempts, r.attempt, Reconciled(row, r), Reconciled(blurred, r));
    }
  }

  lemma BlurUncertain(l: Ledger, x: Id)
    ensures SameOutcome(UncertainAction(Blur(l), x), UncertainAction(l, x))
  {
    hide Relabelled;
    BlurRow(l.attempts, x);
    BlurTwice(l.attempts);
    if x in l.attempts {
      BlurUpdate(l.attempts, x, WithState(l.attempts[x], Uncertain), WithState(Blur(l).attempts[x], Uncertain));
    }
  }

  lemma BlurCancel(t: Table)
    ensures Relabelled(CancelTable(Relabelled(t))) == Relabelled(CancelTable(t))
  {
  }

  lemma BlurSnapshot(l: Ledger)
    ensures SnapshotOf(Blur(l).attempts, Blur(l).attempts.Keys, l.policy)
         == SnapshotOf(l.attempts, l.attempts.Keys, l.policy)
  {
    var t := l.attempts;
    assert Relabelled(t).Keys == t.Keys;
    BlurWithin(t, t.Keys, l.policy);
    BlurSum(Charged(Attempts), t, t.Keys);
    BlurSum(Charged(Tokens), t, t.Keys);
    BlurSum(Charged(Cost), t, t.Keys);
    BlurSum(Charged(Bytes), t, t.Keys);
    BlurSum(Charged(Active), t, t.Keys);
  }

  lemma BlurRemainingAction(l: Ledger, x: Option<Id>)
    requires Forest(l.attempts)
    ensures Forest(Blur(l).attempts)
    ensures SameOutcome(RemainingAction(Blur(l), x), RemainingAction(l, x))
  {
    hide ChainRemaining, Relabelled, Forest;
    if x.Some? {
      BlurRow(l.attempts, x.value);
    }
    BlurForest(l.attempts);
    BlurTwice(l.attempts);
    if x.Some? && x.value in l.attempts {
      BlurRemaining(l.attempts, x.value, Elapsed(l), l.policy.maxElapsed - Elapsed(l));
    }
  }

  lemma BlurReads(l: Ledger, op: Op)
    requires Forest(l.attempts) && (op.GetAttempt? || op.GetIntent? || op.CancellationReport?)
    ensures Forest(Blur(l).attempts)
    ensures SameOutcome(Action(Blur(l), op), Action(l, op))
  {
    hide Relabelled, ReserveAction, DispatchAction, UncertainAction, ReleaseAction, ReconcileAction,
      RemainingAction, SnapshotOf, CancelTable, Forest;
    BlurRows(l.attempts);
    BlurForest(l.attempts);
    BlurTwice(l.attempts);
  }

  lemma BlurAction(l: Ledger, op: Op)
    requires Forest(l.attempts)
    ensures Forest(Blur(l).attempts)
    ensures SameOutcome(Action(Blur(l), op), Action(l, op))
  {
    hide ReserveAction, DispatchAction, UncertainAction, ReleaseAction, ReconcileAction, RemainingAction, SnapshotOf,
      Relabelled, CancelTable, Forest;
    BlurForest(l.attempts);
    BlurTwice(l.attempts);
    match op {
      case Reserve(q, child) => BlurReserve(l, q, child);
      case MarkDispatched(x, approval, claim) => BlurDispatch(l, x, approval, claim);
      case MarkUncertain(x) => BlurUncertain(l, x);
      case Release(x) => BlurRelease(l, x);
      case Reconcile(r, establishes) => BlurReconcile(l, r, establishes);
      case Cancel => BlurCancel(l.attempts);
      case TakeSnapshot => BlurSnapshot(l);
      case RemainingElapsed(x) => BlurRemainingAction(l, x);
      case Reopen(_) =>
        RecoveryRelabels(l.attempts);
        RecoveryRelabels(Relabelled(l.attempts));
      case _ => BlurReads(l, op);
    }
  }

  // ---------------------------------------------------------------- runs

  /** The ledgers differ at most in which attempts are labelled dispatched rather than uncertain. */
  ghost predicate Alike(l: Ledger, k: Ledger) {
    Blur(l) == Blur(k)
  }

  /** Alike, but the clock readings may differ. */
  ghost predicate AlikeButClock(l: Ledger, k: Ledger) {
    Alike(l.(lastSeen := 0), k.(lastSeen := 0))
  }

  ghost predicate SameReplies(rs: seq<Reply>, ss: seq<Reply>) {
    |rs| == |ss| && forall i :: 0 <= i < |rs| ==> BlurReply(rs[i]) == BlurReply(ss[i])
  }

  lemma AlikeActions(l: Ledger, k: Ledger, op: Op)
    requires Forest(l.attempts) && Forest(k.attempts) && Alike(l, k)
    ensures SameOutcome(Action(l, op), Action(k, op))
  {
    hide Action;
    BlurAction(l, op);
    BlurAction(k, op);
  }

  /** One call on alike ledgers: the same reply up to the label, and alike ledgers again. */
  lemma AlikeSteps(l: Ledger, k: Ledger, op: Op, now: nat)
    requires Forest(l.attempts) && Forest(k.attempts)
    requires Alike(l, k) || (AlikeButClock(l, k) && l.lastSeen <= now && k.lastSeen <= now && ReadsClock(l, op))
    ensures SameOutcome(Step(l, op, now), Step(k, op, now))
  {
    hide Action;
    if ReadsClock(l, op) && l.lastSeen <= now && k.lastSeen <= now {
      AlikeActions(l.(lastSeen := now), k.(lastSeen := now), op);
    }
  }

  /** Two histories whose ledgers are alike stay alike, reply for reply. */
  lemma {:induction false} AlikeRuns(h: History, g: History, calls: seq<Call>)
    requires Sound(h) && Sound(g) && h.log == g.log && Alike(h.ledger, g.ledger)
    ensures Alike(Run(h, calls).ledger, Run(g, calls).ledger)
    ensures Run(h, calls).log == Run(g, calls).log
    ensures SameReplies(Replies(h, calls), Replies(g, calls))
    decreases |calls|
  {
    hide Caps, Receipts, Grants, Narrow, Fanout, Shallow, ReleasedClosed, Shaped, LogMatches, SourcesFirst, Step, Blur;
    if calls != [] {
      AdvanceKeepsSound(h, calls[0]);
      AdvanceKeepsSound(g, calls[0]);
      AlikeSteps(h.ledger, g.ledger, calls[0].op, calls[0].now);
      AlikeRuns(Advance(h, calls[0]), Advance(g, calls[0]), calls[1..]);
    }
  }

  /** The first call that reads the clock reads at least the given time. */
  ghost predicate NextReadsFrom(l: Ledger, calls: seq<Call>, time: nat) {
    calls != [] ==>
      if ReadsClock(l, calls[0].op) then time <= calls[0].now else NextReadsFrom(l, calls[1..], time)
  }

  lemma {:induction false} AlikeRunsAfterTick(h: History, g: History, calls: seq<Call>)
    requires Sound(h) && Sound(g) && h.log == g.log && AlikeButClock(h.ledger, g.ledger)
    requires h.ledger.lastSeen <= g.ledger.lastSeen && NextReadsFrom(h.ledger, calls, g.ledger.lastSeen)
    ensures AlikeButClock(Run(h, calls).ledger, Run(g, calls).ledger)
    ensures calls != [] && ReadsClock(h.ledger, calls[0].op) ==> Alike(Run(h, calls).ledger, Run(g, calls).ledger)
    ensures Run(h, calls).log == Run(g, calls).log
    ensures SameReplies(Replies(h, calls), Replies(g, calls))
    decreases |calls|
  {
    hide Caps, Receipts, Grants, Narrow, Fanout, Shallow, ReleasedClosed, Shaped, LogMatches, SourcesFirst, Action;
    if calls != [] {
      AdvanceKeepsSound(h, calls[0]);
      AdvanceKeepsSound(g, calls[0]);
      if ReadsClock(h.ledger, calls[0].op) {
        AlikeSteps(h.ledger, g.ledger, calls[0].op, calls[0].now);
        AlikeRuns(Advance(h, calls[0]), Advance(g, calls[0]), calls[1..]);
      } else {
        AlikeRunsAfterTick(h, g, calls[1..]);
      }
    }
  }

  /**
   Reopening the ledger between two calls, at a time between their clock readings, changes no later reply but
   for the label, no dispatch, and nothing in the tables but the label and, if nothing follows, the clock.
   */
  lemma RestartIsTransparent(h: History, before: seq<Call>, reopened: nat, after: seq<Call>)
    requires Sound(h)
    requires Run(h, before).ledger.lastSeen <= reopened
    requires NextReadsFrom(Run(h, before).ledger, after, reopened)
    ensures NothingInFlight(Run(h, before + [Call(Reopen(PolicyOf(h.ledger)), reopened)]).ledger.attempts)
    ensures
      var plain := before + after;
      var restarted := before + [Call(Reopen(PolicyOf(h.ledger)), reopened)] + after;
      && AlikeButClock(Run(h, plain).ledger, Run(h, restarted).ledger)
      && (after != [] && ReadsClock(Run(h, before).ledger, after[0].op) ==>
            Alike(Run(h, plain).ledger, Run(h, restarted).ledger))
      && Run(h, plain).log == Run(h, restarted).log
      && Replies(h, restarted)[|before|] == Done
      && Replies(h, restarted)[..|before|] == Replies(h, plain)[..|before|]
      && SameReplies(Replies(h, plain)[|before|..], Replies(h, restarted)[|before| + 1..])
  {
    hide Caps, Receipts, Grants, Narrow, Fanout, Shallow, ReleasedClosed, Shaped, LogMatches, SourcesFirst, Step, Blur,
      SameReplies, NextReadsFrom, Advance, Run, Replies;
    var reopen := Call(Reopen(PolicyOf(h.ledger)), reopened);
    var mid := Run(h, before);
    RunProgress(h, before);
    ReopenBlurs(mid, reopen);
    AdvanceKeepsSound(mid, reopen);
    var next := Advance(mid, reopen);
    AlikeRunsAfterTick(mid, next, after);
    RunConcat(h, before, after);
    RunConcat(h, before, [reopen] + after);
    RunCons(mid, reopen, after);
    assert before + [reopen] + after == before + ([reopen] + after);
    RepliesApart(Replies(h, before), Replies(mid, after), Replies(next, after));
    RunConcat(h, before, [reopen]);
    ReopenedRun(mid, reopen);
  }

  ghost predicate NothingInFlight(t: Table) {
    forall x :: x in t ==> !t[x].state.Dispatched?
  }

  lemma ReopenedRun(h: History, reopen: Call)
    requires Sound(h) && reopen.op == Reopen(PolicyOf(h.ledger)) && h.ledger.lastSeen <= reopen.now
    ensures NothingInFlight(Run(h, [reopen]).ledger.attempts)
  {
    hide Inv, LogMatches, SourcesFirst, Step, Forest;
    InvIsForest(h.ledger);
    RunCons(h, reopen, []);
    assert [reopen] + [] == [reopen];
    ReopenRecovers(h.ledger, PolicyOf(h.ledger), reopen.now);
  }

  lemma RepliesApart(first: seq<Reply>, plain: seq<Reply>, restarted: seq<Reply>)
    ensures (first + ([Done] + restarted))[|first|] == Done
    ensures (first + ([Done] + restarted))[..|first|] == first == (first + plain)[..|first|]
    ensures (first + ([Done] + restarted))[|first| + 1..] == restarted
    ensures (first + plain)[|first|..] == plain
  {
  }

  lemma ReopenBlurs(h: History, reopen: Call)
    requires Sound(h) && reopen.op == Reopen(PolicyOf(h.ledger)) && h.ledger.lastSeen <= reopen.now
    ensures Advance(h, reopen) == History(Blur(h.ledger).(lastSeen := reopen.now), h.log)
    ensures Step(h.ledger, reopen.op, reopen.now).1 == Done
    ensures AlikeButClock(h.ledger, Advance(h, reopen).ledger)
  {
    hide Caps, Receipts, Grants, Narrow, Fanout, Shallow, ReleasedClosed, Shaped, LogMatches, SourcesFirst,
      Relabelled;
    BlurTwice(h.ledger.attempts);
    RecoveryRelabels(h.ledger.attempts);
  }
}
