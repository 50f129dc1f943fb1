/** What holds of the tables in every reachable state, and that every step keeps it. */
module LedgerInvariant {
  import opened Common
  import opened BudgetTypes
  import opened AttemptForest
  import opened Sums
  import opened LedgerSpec

  // ---------------------------------------------------------------- rows

  /** Which columns a state fills; retained output never exceeds its reservation. */
  predicate RowShape(row: Row) {
    && (row.bytes.Some? ==> row.bytes.value <= row.request.bytes)
    && match row.state {
         case UsageUnknown => row.outcome.Some? && !(row.tokens.Some? && row.cost.Some? && row.bytes.Some?)
         case Settled => row.outcome.Some? && row.tokens.Some? && row.cost.Some? && row.bytes.Some?
         case _ => row.outcome.None? && row.tokens.None? && row.cost.None? && row.bytes.None?
       }
  }

  /** The order in which states can follow one another, in any number of steps. */
  predicate StateEvolves(s: State, s': State) {
    || s == s'
    || s.Reserved?
    || (s.Dispatched? && (s'.Uncertain? || s'.UsageUnknown? || s'.Settled?))
    || (s.Uncertain? && (s'.UsageUnknown? || s'.Settled?))
    || (s.UsageUnknown? && s'.Settled?)
  }

  predicate Keeps<T(==)>(known: Option<T>, later: Option<T>) {
    known.Some? ==> later == known
  }

  /**
   Admission data never change, knowledge only grows, only active attempts are asked to stop, and settled and
   released rows are frozen.
   */
  predicate RowEvolves(r: Row, r': Row) {
    && r'.request == r.request && r'.limits == r.limits && r'.depth == r.depth
    && StateEvolves(r.state, r'.state)
    && Keeps(r.tokens, r'.tokens) && Keeps(r.cost, r'.cost) && Keeps(r.bytes, r'.bytes)
    && Keeps(r.outcome, r'.outcome)
    && (r.cancelRequested ==> r'.cancelRequested)
    && (r'.cancelRequested && !r.cancelRequested ==> r.state.Active())
    && (r.state.Settled? || r.state.Released? ==> r' == r)
  }

  ghost predicate Shaped(t: Table) {
    forall x :: x in t ==> RowShape(t[x])
  }

  ghost predicate TableEvolves(t: Table, u: Table) {
    forall x :: x in t ==> x in u && RowEvolves(t[x], u[x])
  }

  /** Along any evolution a row's charge rises by no more than its overrun does. */
  lemma ChargeRisesWithOverrun(m: Meter, r: Row, r': Row)
    requires RowShape(r) && RowShape(r') && RowEvolves(r, r')
    ensures Charge(m, r') + Overrun(m, r) <= Charge(m, r) + Overrun(m, r')
  {
    match m {
      case Attempts =>
      case Tokens =>
      case Cost =>
      case Bytes =>
      case Active =>
    }
  }

  lemma {:induction false} SumsRiseWithOverruns(m: Meter, t: Table, u: Table, ids: set<Id>)
    requires Shaped(t) && Shaped(u) && TableEvolves(t, u) && ids <= t.Keys && ids <= u.Keys
    ensures Sum(Charged(m), u, ids) + Sum(Over(m), t, ids) <= Sum(Charged(m), t, ids) + Sum(Over(m), u, ids)
  {
    if ids != {} {
      var x :| x in ids;
      SumRemove(Charged(m), t, ids, x);
      SumRemove(Over(m), t, ids, x);
      SumRemove(Charged(m), u, ids, x);
      SumRemove(Over(m), u, ids, x);
      ChargeRisesWithOverrun(m, t[x], u[x]);
      SumsRiseWithOverruns(m, t, u, ids - {x});
    }
  }

  // ---------------------------------------------------------------- the invariant

  ghost predicate Narrow(l: Ledger)
    requires Forest(l.attempts)
  {
    forall x {:trigger l.attempts[x].request.parent} ::
      x in l.attempts ==> l.attempts[x].limits.IsWithin(Inherited(l, l.attempts[x].request.parent))
  }

  ghost predicate Fanout(l: Ledger) {
    forall p {:trigger Children(l.attempts, p)} ::
      p in l.attempts ==> |Children(l.attempts, p)| <= l.attempts[p].limits.maxChildren
  }

  ghost predicate Shallow(l: Ledger)
    requires Forest(l.attempts)
  {
    && (forall x :: x in l.attempts ==> l.attempts[x].depth <= l.policy.maxDepth)
    && (forall x, a :: x in l.attempts && a in l.attempts && Descends(l.attempts, x, a) ==>
          l.attempts[x].depth - l.attempts[a].depth <= l.attempts[a].limits.maxDepth)
  }

  ghost predicate Caps(l: Ledger)
    requires Forest(l.attempts)
  {
    && Capped(l.attempts, l.attempts.Keys, l.policy)
    && forall a :: a in l.attempts ==> Capped(l.attempts, Subtree(l.attempts, a), l.attempts[a].limits)
  }

  /** A receipt says no more than its attempt's row, and never otherwise. */
  predicate AgreesWith(r: Receipt, row: Row) {
    && row.outcome == Some(r.outcome)
    && Keeps(r.tokens, row.tokens) && Keeps(r.cost, row.cost) && Keeps(r.bytes, row.bytes)
  }

  /** A receipt says exactly what the row says. */
  predicate Repeats(r: Receipt, row: Row) {
    && row.outcome == Some(r.outcome)
    && r.tokens == row.tokens && r.cost == row.cost && r.bytes == row.bytes
  }

  ghost predicate Receipts(l: Ledger) {
    && (forall r :: r in l.receipts ==>
          && l.receipts[r].id == r
          && l.receipts[r].attempt in l.attempts
          && AgreesWith(l.receipts[r], l.attempts[l.receipts[r].attempt]))
    && (forall x :: x in l.attempts && l.attempts[x].outcome.Some? ==>
          exists r :: r in l.receipts && l.receipts[r].attempt == x && Repeats(l.receipts[r], l.attempts[x]))
    && (forall r, s | r in l.receipts && s in l.receipts && l.receipts[r].attempt == l.receipts[s].attempt ::
          l.receipts[r].FullyKnown() && l.receipts[s].FullyKnown() ==> r == s)
  }

  /** No two prerequisites come from one source, and none are spent by one consumer. */
  ghost predicate PrerequisitesOnce(ps: map<Id, Prerequisite>) {
    && (forall p, q | p in ps && q in ps :: ps[p].source == ps[q].source ==> p == q)
    && (forall p, q | p in ps && q in ps && ps[p].consumedBy.Some? ::
          ps[p].consumedBy == ps[q].consumedBy ==> p == q)
  }

  /** No two approval receipts are spent on one attempt. */
  ghost predicate ApprovalsOnce(approvals: map<Id, Id>) {
    forall a, b | a in approvals && b in approvals :: approvals[a] == approvals[b] ==> a == b
  }

  ghost predicate WasDispatched(t: Table, x: Id) {
    x in t && t[x].state.EverDispatched()
  }

  ghost predicate WasCompleted(t: Table, x: Id) {
    x in t && t[x].outcome == Some(Completed)
  }

  /** Sources have completed and consumers have been dispatched. */
  ghost predicate PrerequisitesUsed(t: Table, ps: map<Id, Prerequisite>) {
    forall p :: p in ps ==>
      && WasCompleted(t, ps[p].source)
      && (ps[p].consumedBy.Some? ==> WasDispatched(t, ps[p].consumedBy.value))
  }

  ghost predicate ApprovalsUsed(t: Table, approvals: map<Id, Id>, intents: map<Id, Intent>) {
    && (forall a :: a in approvals ==> WasDispatched(t, approvals[a]))
    && (forall x :: x in intents ==> WasDispatched(t, x))
  }

  /** Approvals and prerequisites are used once, by attempts that were dispatched, after a completed source. */
  ghost predicate Grants(l: Ledger) {
    && PrerequisitesOnce(l.prerequisites)
    && ApprovalsOnce(l.approvals)
    && PrerequisitesUsed(l.attempts, l.prerequisites)
    && ApprovalsUsed(l.attempts, l.approvals, l.intents)
  }

  ghost predicate HasReleasedParent(t: Table, x: Id)
    requires Forest(t) && x in t
  {
    t[x].request.parent.Some? && t[t[x].request.parent.value].state.Released?
  }

  /** Until cancellation a child of a released attempt is released; afterwards nothing is reserved. */
  ghost predicate ReleasedClosed(l: Ledger)
    requires Forest(l.attempts)
  {
    && (l.cancelled ==> forall x :: x in l.attempts ==> !l.attempts[x].state.Reserved?)
    && (!l.cancelled ==> forall x {:trigger HasReleasedParent(l.attempts, x)} ::
          x in l.attempts && HasReleasedParent(l.attempts, x) ==>
          l.attempts[x].state.Released?)
  }

  ghost predicate Inv(l: Ledger) {
    && Forest(l.attempts)
    && l.started <= l.lastSeen
    && Shaped(l.attempts)
    && Narrow(l)
    && Fanout(l)
    && Shallow(l)
    && Caps(l)
    && Receipts(l)
    && Grants(l)
    && ReleasedClosed(l)
  }

  lemma InvIsForest(l: Ledger)
    requires Inv(l)
    ensures Forest(l.attempts)
  {
  }

  lemma FreshInv(policy: Policy, now: nat)
    ensures Inv(Fresh(policy, now))
  {
  }

  // ---------------------------------------------------------------- steps on the attempts table

  lemma RowUpdateEvolves(t: Table, x: Id, row: Row)
    requires Shaped(t) && x in t && RowEvolves(t[x], row) && RowShape(row)
    ensures TableEvolves(t, t[x := row]) && Shaped(t[x := row]) && SameSkeleton(t, t[x := row])
  {
  }

  lemma ReconciledEvolves(row: Row, r: Receipt)
    requires RowShape(row)
    requires row.state.Dispatched? || row.state.Uncertain? || (row.state.UsageUnknown? && !ConflictingUpdate(row, r))
    requires r.bytes.Some? ==> r.bytes.value <= row.request.bytes
    ensures RowEvolves(row, Reconciled(row, r)) && RowShape(Reconciled(row, r))
  {
  }

  /** Every row of u is an evolution of the same attempt's row in t, and nothing was admitted. */
  ghost predicate Rewrites(t: Table, u: Table) {
    TableEvolves(t, u) && Shaped(u) && SameSkeleton(t, u)
  }

  lemma NoRewrite(t: Table)
    requires Shaped(t)
    ensures Rewrites(t, t)
  {
  }

  lemma DispatchedRowEvolves(t: Table, x: Id)
    requires Shaped(t) && x in t && t[x].state.Reserved?
    ensures Rewrites(t, t[x := WithState(t[x], Dispatched)])
  {
    RowUpdateEvolves(t, x, WithState(t[x], Dispatched));
  }

  lemma DispatchRewrites(l: Ledger, x: Id, approval: Option<Approval>, claim: Option<Claim>)
    requires Forest(l.attempts) && Shaped(l.attempts)
    ensures Rewrites(l.attempts, DispatchAction(l, x, approval, claim).0.attempts)
  {
    NoRewrite(l.attempts);
    if DispatchDenial(l, x, approval, claim).None? {
      DispatchedRowEvolves(l.attempts, x);
    }
  }

  lemma ReconcileRewrites(l: Ledger, r: Receipt, establishes: Option<Claim>)
    requires Shaped(l.attempts)
    ensures Rewrites(l.attempts, ReconcileAction(l, r, establishes).0.attempts)
  {
    NoRewrite(l.attempts);
    if ReconcileDenial(l, r, establishes).None? {
      ReconciledEvolves(l.attempts[r.attempt], r);
      RowUpdateEvolves(l.attempts, r.attempt, Reconciled(l.attempts[r.attempt], r));
    }
  }

  lemma MarkUncertainRewrites(l: Ledger, x: Id)
    requires Shaped(l.attempts)
    ensures Rewrites(l.attempts, UncertainAction(l, x).0.attempts)
  {
    NoRewrite(l.attempts);
    if UncertainAction(l, x).1.Attempted? {
      RowUpdateEvolves(l.attempts, x, WithState(l.attempts[x], Uncertain));
    }
  }

  lemma ReleaseRewrites(l: Ledger, x: Id)
    requires Forest(l.attempts) && Shaped(l.attempts)
    ensures Rewrites(l.attempts, ReleaseAction(l, x).0.attempts)
  {
    NoRewrite(l.attempts);
    if ReleaseAction(l, x).1.Attempted? {
      RowUpdateEvolves(l.attempts, x, WithState(l.attempts[x], Released));
    }
  }

  lemma CancelRewrites(t: Table)
    requires Shaped(t)
    ensures Rewrites(t, CancelTable(t))
  {
  }

  lemma RecoverRewrites(t: Table)
    requires Shaped(t)
    ensures Rewrites(t, RecoverTable(t))
  {
  }

  /** Every step that is not a reservation rewrites rows only along their evolution. */
  lemma RowsEvolve(l: Ledger, op: Op)
    requires Forest(l.attempts) && Shaped(l.attempts) && !op.Reserve?
    ensures Rewrites(l.attempts, Action(l, op).0.attempts)
  {
    hide Shaped, Rewrites, DispatchAction, UncertainAction, ReleaseAction, ReconcileAction, SnapshotOf;
    match op {
      case MarkDispatched(x, approval, claim) => DispatchRewrites(l, x, approval, claim);
      case MarkUncertain(x) => MarkUncertainRewrites(l, x);
      case Release(x) => ReleaseRewrites(l, x);
      case Reconcile(r, establishes) => ReconcileRewrites(l, r, establishes);
      case Cancel => CancelRewrites(l.attempts);
      case Reopen(_) => RecoverRewrites(l.attempts);
      case _ => NoRewrite(l.attempts);
    }
  }

  lemma SameSkeletonKeepsStructure(l: Ledger, k: Ledger)
    requires Forest(l.attempts) && SameSkeleton(l.attempts, k.attempts) && k.policy == l.policy
    requires Narrow(l) && Fanout(l) && Shallow(l)
    ensures Forest(k.attempts) && Narrow(k) && Fanout(k) && Shallow(k)
  {
    SkeletonKeepsForest(l.attempts, k.attempts);
    forall x, a | x in k.attempts && a in k.attempts && Descends(k.attempts, x, a)
      ensures k.attempts[x].depth - k.attempts[a].depth <= k.attempts[a].limits.maxDepth
    {
      SkeletonKeepsDescends(l.attempts, k.attempts, x, a);
    }
  }

  lemma CappedEvolves(t: Table, u: Table, ids: set<Id>, limits: Limits)
    requires Shaped(t) && Shaped(u) && TableEvolves(t, u) && ids <= t.Keys && ids <= u.Keys
    requires Capped(t, ids, limits)
    ensures Capped(u, ids, limits)
  {
    forall m: Meter ensures Sum(Charged(m), u, ids) <= Cap(m, limits) + Sum(Over(m), u, ids) {
      SumsRiseWithOverruns(m, t, u, ids);
    }
  }

  lemma EvolutionKeepsCaps(l: Ledger, k: Ledger)
    requires Forest(l.attempts) && Shaped(l.attempts) && Shaped(k.attempts)
    requires SameSkeleton(l.attempts, k.attempts) && TableEvolves(l.attempts, k.attempts) && k.policy == l.policy
    requires Caps(l)
    ensures Forest(k.attempts) && Caps(k)
  {
    var t, u := l.attempts, k.attempts;
    SkeletonKeepsForest(t, u);
    CappedEvolves(t, u, t.Keys, l.policy);
    forall a | a in u ensures Capped(u, Subtree(u, a), u[a].limits) {
      SkeletonKeepsSubtree(t, u, a);
      CappedEvolves(t, u, Subtree(t, a), t[a].limits);
    }
  }

  // ---------------------------------------------------------------- admission

  /** What an admission has checked. */
  lemma AdmissionFacts(l: Ledger, q: Request, child: Option<Limits>)
    requires Forest(l.attempts) && q.id !in l.attempts && ReserveDenial(l, q, child).None?
    ensures q.parent.Some? ==> q.parent.value in l.attempts
    ensures !l.cancelled && OverdrawnBy(l, q, child).None?
    ensures
      var t, row := l.attempts, NewRow(l, q, child);
      && row.limits.IsWithin(Inherited(l, q.parent))
      && row.depth <= l.policy.maxDepth
      && (q.parent.Some? ==> |Children(t, q.parent.value)| < t[q.parent.value].limits.maxChildren)
      && forall a :: a in t && Above(t, q.parent, a) ==>
           && !t[a].state.Released?
           && row.depth - t[a].depth <= t[a].limits.maxDepth
           && Elapsed(l) <= t[a].limits.maxElapsed
  {
  }

  ghost function Admitted(l: Ledger, q: Request, child: Option<Limits>): Ledger
    requires q.parent.Some? ==> q.parent.value in l.attempts
  {
    l.(attempts := l.attempts[q.id := NewRow(l, q, child)])
  }

  lemma AdmissionKeepsNarrow(l: Ledger, q: Request, child: Option<Limits>)
    requires Forest(l.attempts) && Narrow(l) && q.id !in l.attempts
    requires q.parent.Some? ==> q.parent.value in l.attempts
    requires Effective(l, q.parent, child).IsWithin(Inherited(l, q.parent))
    ensures Forest(Admitted(l, q, child).attempts) && Narrow(Admitted(l, q, child))
  {
    InsertIsForest(l, q, child);
    var t, k := l.attempts, Admitted(l, q, child);
    forall x | x in k.attempts
      ensures k.attempts[x].limits.IsWithin(Inherited(k, k.attempts[x].request.parent))
    {
      if x != q.id {
        assert t[x].limits.IsWithin(Inherited(l, t[x].request.parent));
      }
    }
  }

  lemma AdmissionKeepsFanout(l: Ledger, q: Request, child: Option<Limits>)
    requires Forest(l.attempts) && Fanout(l) && q.id !in l.attempts
    requires q.parent.Some? ==>
      && q.parent.value in l.attempts
      && |Children(l.attempts, q.parent.value)| < l.attempts[q.parent.value].limits.maxChildren
    ensures Fanout(Admitted(l, q, child))
  {
    InsertIsForest(l, q, child);
    var t, u := l.attempts, Admitted(l, q, child).attempts;
    forall p | p in u ensures |Children(u, p)| <= u[p].limits.maxChildren {
      InsertedChildren(t, u, q.id, p);
    }
  }

  lemma AdmissionKeepsShallow(l: Ledger, q: Request, child: Option<Limits>)
    requires Forest(l.attempts) && Shallow(l) && q.id !in l.attempts
    requires q.parent.Some? ==> q.parent.value in l.attempts
    requires NewRow(l, q, child).depth <= l.policy.maxDepth
    requires forall a :: a in l.attempts && Above(l.attempts, q.parent, a) ==>
      NewRow(l, q, child).depth - l.attempts[a].depth <= l.attempts[a].limits.maxDepth
    ensures Forest(Admitted(l, q, child).attempts) && Shallow(Admitted(l, q, child))
  {
    InsertIsForest(l, q, child);
    var t, u := l.attempts, Admitted(l, q, child).attempts;
    forall x, a | x in u && a in u && Descends(u, x, a)
      ensures u[x].depth - u[a].depth <= u[a].limits.maxDepth
    {
      DescendsFacts(u, x, a);
      if x != q.id {
        InsertKeepsDescends(t, u, q.id, x, a);
        DescendsFacts(t, x, a);
      } else if a != q.id {
        assert Above(t, q.parent, a);
      }
    }
  }

  lemma WithinIsCapped(t: Table, ids: set<Id>, limits: Limits)
    requires ids <= t.Keys && Within(t, ids, limits)
    ensures Capped(t, ids, limits)
  {
  }

  lemma AdmissionKeepsCaps(l: Ledger, q: Request, child: Option<Limits>)
    requires Forest(l.attempts) && Caps(l) && q.id !in l.attempts
    requires q.parent.Some? ==> q.parent.value in l.attempts
    requires OverdrawnBy(l, q, child).None?
    ensures Forest(Admitted(l, q, child).attempts) && Caps(Admitted(l, q, child))
  {
    InsertIsForest(l, q, child);
    var t, u := l.attempts, Admitted(l, q, child).attempts;
    WithinIsCapped(u, u.Keys, l.policy);
    forall a | a in u ensures Capped(u, Subtree(u, a), u[a].limits) {
      InsertedSubtree(t, u, q.id, a);
      if a == q.id {
        WithinIsCapped(u, {q.id}, u[a].limits);
      } else if Above(t, q.parent, a) {
        WithinIsCapped(u, Subtree(u, a), t[a].limits);
      } else {
        forall m: Meter
          ensures Sum(Charged(m), u, Subtree(t, a)) <= Cap(m, t[a].limits) + Sum(Over(m), u, Subtree(t, a))
        {
          SumPointwise(Charged(m), t, u, Subtree(t, a));
          SumPointwise(Over(m), t, u, Subtree(t, a));
        }
      }
    }
  }

  // ---------------------------------------------------------------- receipts

  /** No row has learned anything new. */
  ghost predicate SameUsage(t: Table, u: Table) {
    && t.Keys <= u.Keys
    && (forall x :: x in t ==>
          && u[x].outcome == t[x].outcome
          && u[x].tokens == t[x].tokens && u[x].cost == t[x].cost && u[x].bytes == t[x].bytes)
    && (forall x :: x in u && x !in t ==> u[x].outcome.None?)
  }

  lemma SameUsageKeepsReceipts(l: Ledger, k: Ledger)
    requires Receipts(l) && k.receipts == l.receipts && SameUsage(l.attempts, k.attempts)
    ensures Receipts(k)
  {
    forall x | x in k.attempts && k.attempts[x].outcome.Some?
      ensures exists r :: r in k.receipts && k.receipts[r].attempt == x && Repeats(k.receipts[r], k.attempts[x])
    {
      var r :| r in l.receipts && l.receipts[r].attempt == x && Repeats(l.receipts[r], l.attempts[x]);
      assert r in k.receipts && k.receipts[r].attempt == x && Repeats(k.receipts[r], k.attempts[x]);
    }
  }

  lemma ReconcileKeepsReceipts(l: Ledger, k: Ledger, r: Receipt)
    requires Shaped(l.attempts) && Receipts(l)
    requires r.id !in l.receipts && r.attempt in l.attempts
    requires var row := l.attempts[r.attempt];
      row.state.Dispatched? || row.state.Uncertain? || (row.state.UsageUnknown? && !ConflictingUpdate(row, r))
    requires k.attempts == l.attempts[r.attempt := Reconciled(l.attempts[r.attempt], r)]
    requires k.receipts == l.receipts[r.id := r]
    ensures Receipts(k)
  {
    var row := l.attempts[r.attempt];
    assert RowShape(row);
    forall s | s in k.receipts
      ensures k.receipts[s].id == s && k.receipts[s].attempt in k.attempts
      ensures AgreesWith(k.receipts[s], k.attempts[k.receipts[s].attempt])
    {
      if s != r.id {
        assert AgreesWith(l.receipts[s], l.attempts[l.receipts[s].attempt]);
      }
    }
    forall x | x in k.attempts && k.attempts[x].outcome.Some?
      ensures exists s :: s in k.receipts && k.receipts[s].attempt == x && Repeats(k.receipts[s], k.attempts[x])
    {
      if x == r.attempt {
        assert Repeats(k.receipts[r.id], k.attempts[x]);
      } else {
        var s :| s in l.receipts && l.receipts[s].attempt == x && Repeats(l.receipts[s], l.attempts[x]);
        assert k.receipts[s] == l.receipts[s];
      }
    }
    // An earlier receipt of an attempt that is still open is incomplete.
    forall s | s in l.receipts && l.receipts[s].attempt == r.attempt ensures !l.receipts[s].FullyKnown() {
      assert AgreesWith(l.receipts[s], row);
    }
  }

  // ---------------------------------------------------------------- approvals and prerequisites

  lemma EvolutionKeepsUse(t: Table, u: Table)
    requires TableEvolves(t, u)
    ensures forall x :: WasDispatched(t, x) ==> WasDispatched(u, x)
    ensures forall x :: WasCompleted(t, x) ==> WasCompleted(u, x)
  {
  }

  lemma EvolutionKeepsGrants(l: Ledger, k: Ledger)
    requires Grants(l) && TableEvolves(l.attempts, k.attempts)
    requires k.prerequisites == l.prerequisites && k.approvals == l.approvals && k.intents == l.intents
    ensures Grants(k)
  {
    EvolutionKeepsUse(l.attempts, k.attempts);
  }

  /** A reserved attempt has consumed nothing so far. */
  lemma ReservedHasNoGrants(l: Ledger, x: Id)
    requires Grants(l) && x in l.attempts && l.attempts[x].state.Reserved?
    ensures forall p :: p in l.prerequisites ==> l.prerequisites[p].consumedBy != Some(x)
    ensures forall a :: a in l.approvals ==> l.approvals[a] != x
    ensures x !in l.intents
  {
    assert !WasDispatched(l.attempts, x);
  }

  lemma ConsumeOnce(ps: map<Id, Prerequisite>, claim: Option<Claim>, x: Id)
    requires PrerequisitesOnce(ps)
    requires forall p :: p in ps ==> ps[p].consumedBy != Some(x)
    ensures PrerequisitesOnce(Consume(ps, claim, x))
  {
    var qs := Consume(ps, claim, x);
    assert forall p :: p in ps ==> p in qs && qs[p].source == ps[p].source;
  }

  lemma ConsumeUsed(t: Table, u: Table, ps: map<Id, Prerequisite>, claim: Option<Claim>, x: Id)
    requires PrerequisitesUsed(t, ps) && TableEvolves(t, u) && WasDispatched(u, x)
    ensures PrerequisitesUsed(u, Consume(ps, claim, x))
  {
    EvolutionKeepsUse(t, u);
  }

  lemma ApproveOnce(l: Ledger, k: Ledger, x: Id, approval: Option<Approval>)
    requires ApprovalsOnce(l.approvals) && ApprovalsUsed(l.attempts, l.approvals, l.intents)
    requires forall a :: a in l.approvals ==> l.approvals[a] != x
    requires TableEvolves(l.attempts, k.attempts) && WasDispatched(k.attempts, x)
    requires k.approvals == if approval.Some? then l.approvals[approval.value.receipt := x] else l.approvals
    requires k.intents == if approval.Some? then l.intents[x := approval.value.intent] else l.intents
    ensures ApprovalsOnce(k.approvals) && ApprovalsUsed(k.attempts, k.approvals, k.intents)
  {
    EvolutionKeepsUse(l.attempts, k.attempts);
  }

  lemma DispatchKeepsGrants(l: Ledger, x: Id, approval: Option<Approval>, claim: Option<Claim>)
    requires Shaped(l.attempts) && Grants(l) && x in l.attempts && l.attempts[x].state.Reserved?
    ensures Grants(Dispatch(l, x, approval, claim))
  {
    var k := Dispatch(l, x, approval, claim);
    ReservedHasNoGrants(l, x);
    ConsumeOnce(l.prerequisites, claim, x);
    assert TableEvolves(l.attempts, k.attempts) by {
      DispatchedRowEvolves(l.attempts, x);
    }
    ConsumeUsed(l.attempts, k.attempts, l.prerequisites, claim, x);
    ApproveOnce(l, k, x, approval);
  }

  lemma EstablishKeepsGrants(l: Ledger, k: Ledger, r: Receipt, establishes: Option<Claim>)
    requires Grants(l) && TableEvolves(l.attempts, k.attempts)
    requires k.approvals == l.approvals && k.intents == l.intents
    requires k.prerequisites == Establish(l.prerequisites, establishes, r.attempt)
    requires establishes.Some? ==> WasCompleted(k.attempts, r.attempt)
    requires establishes.Some? && establishes.value.receipt !in l.prerequisites ==>
      !HasPrerequisite(l.prerequisites, r.attempt)
    ensures Grants(k)
  {
    EvolutionKeepsUse(l.attempts, k.attempts);
  }

  // ---------------------------------------------------------------- releases

  ghost predicate NoNewRelease(t: Table, u: Table) {
    t.Keys <= u.Keys && forall x :: x in t && u[x].state.Released? ==> t[x].state.Released?
  }

  lemma StatesKeepReleasedClosed(l: Ledger, k: Ledger)
    requires Forest(l.attempts) && ReleasedClosed(l) && k.cancelled == l.cancelled
    requires SameSkeleton(l.attempts, k.attempts) && TableEvolves(l.attempts, k.attempts)
    requires NoNewRelease(l.attempts, k.attempts)
    ensures Forest(k.attempts) && ReleasedClosed(k)
  {
    SkeletonKeepsForest(l.attempts, k.attempts);
    forall x | x in k.attempts && HasReleasedParent(k.attempts, x) && !k.cancelled
      ensures k.attempts[x].state.Released?
    {
      assert HasReleasedParent(l.attempts, x);
    }
  }

  lemma ReleaseKeepsReleasedClosed(l: Ledger, x: Id)
    requires Forest(l.attempts) && ReleasedClosed(l) && x in l.attempts && !HasLiveDescendant(l.attempts, x)
    ensures
      var k := l.(attempts := l.attempts[x := WithState(l.attempts[x], Released)]);
      Forest(k.attempts) && ReleasedClosed(k)
  {
    var t, u := l.attempts, l.attempts[x := WithState(l.attempts[x], Released)];
    SkeletonKeepsForest(t, u);
    forall y | y in u && HasReleasedParent(u, y) && !l.cancelled ensures u[y].state.Released? {
      if t[y].request.parent == Some(x) {
        assert Descends(t, x, x) && Descends(t, y, x);
      } else {
        assert HasReleasedParent(t, y);
      }
    }
  }

  lemma AdmissionKeepsReleasedClosed(l: Ledger, q: Request, child: Option<Limits>)
    requires Forest(l.attempts) && ReleasedClosed(l) && !l.cancelled && q.id !in l.attempts
    requires q.parent.Some? ==> q.parent.value in l.attempts && !l.attempts[q.parent.value].state.Released?
    ensures Forest(Admitted(l, q, child).attempts) && ReleasedClosed(Admitted(l, q, child))
  {
    InsertIsForest(l, q, child);
    var u := Admitted(l, q, child).attempts;
    forall y | y in u && HasReleasedParent(u, y) ensures u[y].state.Released? {
      if y != q.id {
        assert HasReleasedParent(l.attempts, y);
      }
    }
  }

  /** Until cancellation, everything below a released attempt is released. */
  lemma {:induction false} ReleasedBelow(l: Ledger, x: Id, a: Id)
    requires Forest(l.attempts) && ReleasedClosed(l) && !l.cancelled
    requires x in l.attempts && Descends(l.attempts, x, a)
    ensures a in l.attempts
    ensures l.attempts[a].state.Released? ==> l.attempts[x].state.Released?
    decreases l.attempts[x].depth
  {
    if x != a {
      ReleasedBelow(l, l.attempts[x].request.parent.value, a);
      assert l.attempts[a].state.Released? ==> HasReleasedParent(l.attempts, x);
    }
  }

  // ---------------------------------------------------------------- every step

  lemma AdmissionKeepsInv(l: Ledger, q: Request, child: Option<Limits>)
    requires Inv(l) && q.id !in l.attempts && ReserveDenial(l, q, child).None?
    ensures Inv(Admitted(l, q, child))
  {
    hide Caps, Receipts, Grants, Narrow, Fanout, Shallow, ReleasedClosed, OverdrawnBy;
    var t, k := l.attempts, Admitted(l, q, child);
    AdmissionFacts(l, q, child);
    if q.parent.Some? {
      assert Above(t, q.parent, q.parent.value);
    }
    AdmissionKeepsNarrow(l, q, child);
    AdmissionKeepsFanout(l, q, child);
    AdmissionKeepsShallow(l, q, child);
    AdmissionKeepsCaps(l, q, child);
    AdmissionKeepsReleasedClosed(l, q, child);
    SameUsageKeepsReceipts(l, k);
    EvolutionKeepsGrants(l, k);
  }

  /** The pieces of the invariant that only depend on rows having evolved. */
  lemma RewriteKeepsStructure(l: Ledger, k: Ledger)
    requires Inv(l) && Rewrites(l.attempts, k.attempts) && k.policy == l.policy
    ensures Forest(k.attempts) && Shaped(k.attempts)
    ensures Narrow(k) && Fanout(k) && Shallow(k) && Caps(k)
  {
    SameSkeletonKeepsStructure(l, k);
    EvolutionKeepsCaps(l, k);
  }

  lemma RowUpdateLearnsNothing(t: Table, x: Id, row: Row)
    requires x in t && row == t[x].(state := row.state) && (row.state.Released? ==> t[x].state.Released?)
    ensures SameUsage(t, t[x := row]) && NoNewRelease(t, t[x := row])
  {
  }

  lemma DispatchKeepsInv(l: Ledger, x: Id, approval: Option<Approval>, claim: Option<Claim>)
    requires Inv(l) && x in l.attempts && l.attempts[x].state.Reserved?
    ensures Inv(Dispatch(l, x, approval, claim))
  {
    hide Caps, Receipts, Grants, Narrow, Fanout, Shallow, ReleasedClosed, Shaped, TableEvolves, SameSkeleton, SameUsage,
      NoNewRelease;
    var k, row := Dispatch(l, x, approval, claim), WithState(l.attempts[x], Dispatched);
    DispatchedRowEvolves(l.attempts, x);
    RowUpdateLearnsNothing(l.attempts, x, row);
    RewriteKeepsStructure(l, k);
    SameUsageKeepsReceipts(l, k);
    DispatchKeepsGrants(l, x, approval, claim);
    StatesKeepReleasedClosed(l, k);
  }

  lemma ReconcileKeepsInv(l: Ledger, r: Receipt, establishes: Option<Claim>)
    requires Inv(l) && (establishes.Some? ==> r.outcome.Completed?)
    ensures Inv(ReconcileAction(l, r, establishes).0)
  {
    hide Caps, Receipts, Grants, Narrow, Fanout, Shallow, ReleasedClosed, Shaped, TableEvolves, SameSkeleton;
    var k := ReconcileAction(l, r, establishes).0;
    if k != l {
      ReconcileRewrites(l, r, establishes);
      RewriteKeepsStructure(l, k);
      ReconcileKeepsReceipts(l, k, r);
      EstablishKeepsGrants(l, k, r, establishes);
      StatesKeepReleasedClosed(l, k);
    }
  }

  lemma RelabelKeepsInv(l: Ledger, k: Ledger)
    requires Inv(l) && k == l.(attempts := k.attempts)
    requires Rewrites(l.attempts, k.attempts) && SameUsage(l.attempts, k.attempts)
    requires NoNewRelease(l.attempts, k.attempts)
    ensures Inv(k)
  {
    hide Caps, Receipts, Grants, Narrow, Fanout, Shallow, ReleasedClosed, Shaped, TableEvolves, SameSkeleton;
    RewriteKeepsStructure(l, k);
    SameUsageKeepsReceipts(l, k);
    EvolutionKeepsGrants(l, k);
    StatesKeepReleasedClosed(l, k);
  }

  lemma ReleaseLearnsNothing(t: Table, x: Id)
    requires x in t
    ensures SameUsage(t, t[x := WithState(t[x], Released)])
  {
  }

  lemma ReleaseKeepsInv(l: Ledger, x: Id)
    requires Inv(l)
    ensures Inv(ReleaseAction(l, x).0)
  {
    hide Caps, Receipts, Grants, Narrow, Fanout, Shallow, ReleasedClosed, Shaped, TableEvolves, SameSkeleton, SameUsage,
      HasLiveDescendant;
    var k := ReleaseAction(l, x).0;
    if k != l {
      ReleaseRewrites(l, x);
      ReleaseLearnsNothing(l.attempts, x);
      RewriteKeepsStructure(l, k);
      SameUsageKeepsReceipts(l, k);
      EvolutionKeepsGrants(l, k);
      ReleaseKeepsReleasedClosed(l, x);
    }
  }

  lemma CancelKeepsInv(l: Ledger)
    requires Inv(l)
    ensures Inv(l.(cancelled := true, attempts := CancelTable(l.attempts)))
  {
    var k := l.(cancelled := true, attempts := CancelTable(l.attempts));
    CancelRewrites(l.attempts);
    RewriteKeepsStructure(l, k);
    SameUsageKeepsReceipts(l, k);
    EvolutionKeepsGrants(l, k);
  }

  lemma MarkUncertainKeepsInv(l: Ledger, x: Id)
    requires Inv(l)
    ensures Inv(UncertainAction(l, x).0)
  {
    hide Caps, Receipts, Grants, Narrow, Fanout, Shallow, ReleasedClosed, Shaped, TableEvolves, SameSkeleton;
    var k := UncertainAction(l, x).0;
    if k != l {
      MarkUncertainRewrites(l, x);
      RelabelKeepsInv(l, k);
    }
  }

  lemma RecoverKeepsInv(l: Ledger)
    requires Inv(l)
    ensures Inv(l.(attempts := RecoverTable(l.attempts)))
  {
    hide Caps, Receipts, Grants, Narrow, Fanout, Shallow, ReleasedClosed, Shaped, TableEvolves, SameSkeleton;
    RecoverRewrites(l.attempts);
    RelabelKeepsInv(l, l.(attempts := RecoverTable(l.attempts)));
  }

  lemma ReserveKeepsInv(l: Ledger, q: Request, child: Option<Limits>)
    requires Inv(l)
    ensures Inv(ReserveAction(l, q, child).0)
  {
    hide Caps, Receipts, Grants, Narrow, Fanout, Shallow, ReleasedClosed, Shaped, TableEvolves, SameSkeleton;
    if q.id !in l.attempts && ReserveDenial(l, q, child).None? {
      AdmissionKeepsInv(l, q, child);
    }
  }

  lemma DispatchActionKeepsInv(l: Ledger, x: Id, approval: Option<Approval>, claim: Option<Claim>)
    requires Inv(l)
    ensures Inv(DispatchAction(l, x, approval, claim).0)
  {
    hide Caps, Receipts, Grants, Narrow, Fanout, Shallow, ReleasedClosed, Shaped, TableEvolves, SameSkeleton;
    if DispatchDenial(l, x, approval, claim).None? {
      DispatchKeepsInv(l, x, approval, claim);
    }
  }

  lemma ActionKeepsInv(l: Ledger, op: Op)
    requires Inv(l) && WellFormed(op)
    ensures Inv(Action(l, op).0)
  {
    hide Caps, Receipts, Grants, Narrow, Fanout, Shallow, ReleasedClosed, Shaped, TableEvolves, SameSkeleton,
      ReserveAction, DispatchAction, UncertainAction, ReleaseAction, ReconcileAction, RemainingAction, SnapshotOf;
    match op {
      case Reserve(q, child) => ReserveKeepsInv(l, q, child);
      case MarkDispatched(x, approval, claim) => DispatchActionKeepsInv(l, x, approval, claim);
      case MarkUncertain(x) => MarkUncertainKeepsInv(l, x);
      case Release(x) => ReleaseKeepsInv(l, x);
      case Reconcile(r, establishes) => ReconcileKeepsInv(l, r, establishes);
      case Cancel => CancelKeepsInv(l);
      case Reopen(_) => RecoverKeepsInv(l);
      case RemainingElapsed(x) => assert RemainingAction(l, x).0 == l by { RemainingIsReadOnly(l, x); }
      case _ =>
    }
  }

  lemma RemainingIsReadOnly(l: Ledger, x: Option<Id>)
    requires Forest(l.attempts)
    ensures RemainingAction(l, x).0 == l
  {
  }

  lemma TickKeepsInv(l: Ledger, now: nat)
    requires Inv(l) && l.lastSeen <= now
    ensures Inv(l.(lastSeen := now))
  {
  }

  /** Every operation, accepted or not, at any clock value, keeps the invariant. */
  lemma StepKeepsInv(l: Ledger, op: Op, now: nat)
    requires Inv(l)
    ensures Inv(Step(l, op, now).0)
  {
    hide Caps, Receipts, Grants, Narrow, Fanout, Shallow, ReleasedClosed, Shaped, TableEvolves, SameSkeleton;
    if l.lastSeen <= now && WellFormed(op) {
      TickKeepsInv(l, now);
      ActionKeepsInv(l.(lastSeen := now), op);
    }
  }
}
