/** When each operation is accepted, exactly, in terms of the tables alone. */
module LedgerGates {
  import opened Common
  import opened BudgetTypes
  import opened AttemptForest
  import opened Sums
  import opened LedgerSpec
  import opened LedgerInvariant
  import opened LedgerRuns
  import opened LedgerWalks

  // ---------------------------------------------------------------- dispatch

  /** The prerequisite is stored with this payload and nobody has consumed it. */
  ghost predicate Unspent(l: Ledger, claim: Claim) {
    && claim.receipt in l.prerequisites
    && l.prerequisites[claim.receipt].payload == claim.payload
    && l.prerequisites[claim.receipt].consumedBy.None?
  }

  /** The approval is within its window and nobody has used it. */
  ghost predicate Usable(l: Ledger, approval: Approval, now: nat) {
    approval.intent.issuedAt <= now < approval.intent.expiresAt && approval.receipt !in l.approvals
  }

  /** A dispatch is accepted exactly for a reserved attempt in time, with unspent grants, before cancellation. */
  lemma DispatchGate(l: Ledger, x: Id, approval: Option<Approval>, claim: Option<Claim>, now: nat)
    requires Inv(l) && l.lastSeen <= now && WellFormed(MarkDispatched(x, approval, claim))
    ensures Step(l, MarkDispatched(x, approval, claim), now).1.Accepted() <==>
      && x in l.attempts && l.attempts[x].state.Reserved? && !l.cancelled
      && now - l.started <= l.attempts[x].limits.maxElapsed
      && (approval.Some? ==> Usable(l, approval.value, now))
      && (claim.Some? ==> Unspent(l, claim.value))
  {
    hide Caps, Receipts, Grants, Narrow, Fanout, Shallow, ReleasedClosed, Shaped, WalkDenial, Forest;
    InvPieces(l);
    var k := l.(lastSeen := now);
    TickKeepsInv(l, now);
    if x in l.attempts && l.attempts[x].state.Reserved? && !l.cancelled {
      InvPieces(k);
      WalkWithoutReleases(k, x);
      NarrowBelowPolicy(k, x);
      ReservedHasNoGrants(l, x);
    }
  }

  lemma InvPieces(l: Ledger)
    requires Inv(l)
    ensures Forest(l.attempts) && Narrow(l) && ReleasedClosed(l) && Grants(l)
  {
  }

  /** What an accepted dispatch relies on was established by a completed attempt that was dispatched before. */
  lemma DispatchRestsOnCompleted(l: Ledger, x: Id, approval: Option<Approval>, claim: Claim, now: nat)
    requires Inv(l) && Step(l, MarkDispatched(x, approval, Some(claim)), now).1.Accepted()
    ensures claim.receipt in l.prerequisites
    ensures
      var source := l.prerequisites[claim.receipt].source;
      source != x && WasCompleted(l.attempts, source) && WasDispatched(l.attempts, source)
  {
    hide Caps, Receipts, Narrow, Fanout, Shallow, ReleasedClosed, ApprovalsOnce, ApprovalsUsed, PrerequisitesOnce,
      DispatchDenial;
    AcceptedDispatch(l.(lastSeen := now), x, approval, Some(claim));
    var source := l.prerequisites[claim.receipt].source;
    assert WasCompleted(l.attempts, source);
    assert RowShape(l.attempts[source]);
  }

  // ---------------------------------------------------------------- reserve

  /** The parent, if there is one, is stored, live and in time, and has room for a child. */
  ghost predicate ParentAdmits(l: Ledger, parent: Option<Id>, now: nat) {
    match parent
    case None => now - l.started <= l.policy.maxElapsed
    case Some(p) =>
      && p in l.attempts && !l.attempts[p].state.Released?
      && now - l.started <= l.attempts[p].limits.maxElapsed
      && |Children(l.attempts, p)| < l.attempts[p].limits.maxChildren
  }

  /** What a request asks of each meter. */
  function Ask(m: Meter, q: Request): nat {
    match m
    case Attempts => 1
    case Tokens => q.tokens
    case Cost => q.cost
    case Bytes => q.bytes
    case Active => 1
  }

  /** The charged totals of some attempts leave room for a request. */
  ghost predicate Room(t: Table, ids: set<Id>, limits: Limits, q: Request)
    requires ids <= t.Keys
  {
    forall m: Meter :: Sum(Charged(m), t, ids) + Ask(m, q) <= Cap(m, limits)
  }

  ghost function DepthUnder(l: Ledger, parent: Option<Id>): nat
    requires parent.Some? ==> parent.value in l.attempts
  {
    match parent
    case None => 0
    case Some(p) => l.attempts[p].depth + 1
  }

  /** A new row under this parent is not too deep for the policy or for any ancestor. */
  ghost predicate DepthFits(l: Ledger, parent: Option<Id>)
    requires Forest(l.attempts) && (parent.Some? ==> parent.value in l.attempts)
  {
    && DepthUnder(l, parent) <= l.policy.maxDepth
    && forall a :: a in l.attempts && Above(l.attempts, parent, a) ==>
         DepthUnder(l, parent) - l.attempts[a].depth <= l.attempts[a].limits.maxDepth
  }

  /** The request fits the stored totals of the ledger and of every ancestor's subtree, and its own limits. */
  ghost predicate TotalsFit(l: Ledger, q: Request, limits: Limits)
    requires Forest(l.attempts) && (q.parent.Some? ==> q.parent.value in l.attempts)
  {
    && Room(l.attempts, l.attempts.Keys, l.policy, q)
    && (forall a :: a in l.attempts && Above(l.attempts, q.parent, a) ==>
          Room(l.attempts, Subtree(l.attempts, a), l.attempts[a].limits, q))
    && Room(l.attempts, {}, limits, q)
  }

  ghost predicate RowFits(l: Ledger, q: Request, child: Option<Limits>)
    requires Forest(l.attempts) && (q.parent.Some? ==> q.parent.value in l.attempts)
  {
    && Effective(l, q.parent, child).IsWithin(Inherited(l, q.parent))
    && DepthFits(l, q.parent)
    && TotalsFit(l, q, Effective(l, q.parent, child))
  }

  /** Storing the row adds exactly what its request asks. */
  lemma AdmittedWithin(l: Ledger, q: Request, child: Option<Limits>, ids: set<Id>, limits: Limits)
    requires q.id !in l.attempts && (q.parent.Some? ==> q.parent.value in l.attempts) && ids <= l.attempts.Keys
    ensures Within(Admitted(l, q, child).attempts, ids + {q.id}, limits) <==> Room(l.attempts, ids, limits, q)
  {
    var t, u := l.attempts, Admitted(l, q, child).attempts;
    forall m: Meter
      ensures Sum(Charged(m), u, ids + {q.id}) == Sum(Charged(m), t, ids) + Ask(m, q)
    {
      SumAdd(Charged(m), u, ids, q.id);
      SumPointwise(Charged(m), t, u, ids);
      assert Charge(m, NewRow(l, q, child)) == Ask(m, q);
    }
  }

  /** The verdict on the stored row, in terms of the totals before it was stored. */
  lemma OverdrawnInTotals(l: Ledger, q: Request, child: Option<Limits>)
    requires Forest(l.attempts) && q.id !in l.attempts && (q.parent.Some? ==> q.parent.value in l.attempts)
    ensures OverdrawnBy(l, q, child).None? <==> TotalsFit(l, q, Effective(l, q.parent, child))
  {
    hide Within, Room, Forest, Above;
    var t, u := l.attempts, Admitted(l, q, child).attempts;
    InsertIsForest(l, q, child);
    AdmittedWithin(l, q, child, t.Keys, l.policy);
    assert u.Keys == t.Keys + {q.id};
    AdmittedWithin(l, q, child, {}, Effective(l, q.parent, child));
    assert {} + {q.id} == {q.id};
    forall a | a in t && Above(t, q.parent, a)
      ensures Within(u, Subtree(u, a), t[a].limits) <==> Room(t, Subtree(t, a), t[a].limits, q)
    {
      InsertedSubtree(t, u, q.id, a);
      AdmittedWithin(l, q, child, Subtree(t, a), t[a].limits);
    }
  }

  lemma TooDeepIsDepth(l: Ledger, q: Request, child: Option<Limits>)
    requires Forest(l.attempts) && (q.parent.Some? ==> q.parent.value in l.attempts)
    ensures NewRow(l, q, child).depth == DepthUnder(l, q.parent)
    ensures NewRow(l, q, child).limits == Effective(l, q.parent, child)
    ensures DepthFits(l, q.parent) <==>
      DepthUnder(l, q.parent) <= l.policy.maxDepth && !TooDeepFor(l.attempts, q.parent, DepthUnder(l, q.parent))
  {
  }

  lemma ClockDoesNotFit(l: Ledger, q: Request, child: Option<Limits>, now: nat)
    requires Forest(l.attempts) && (q.parent.Some? ==> q.parent.value in l.attempts)
    ensures RowFits(l.(lastSeen := now), q, child) == RowFits(l, q, child)
  {
  }

  /**
   A new reservation is accepted exactly when its parent admits it and what it asks fits the totals, the depth
   and the inherited limits that are stored, before cancellation.
   */
  lemma ReserveGate(l: Ledger, q: Request, child: Option<Limits>, now: nat)
    requires Inv(l) && l.lastSeen <= now && q.id !in l.attempts
    ensures Step(l, Reserve(q, child), now).1.Accepted() <==>
      !l.cancelled && ParentAdmits(l, q.parent, now) && RowFits(l, q, child)
  {
    hide Caps, Receipts, Grants, Narrow, Fanout, Shallow, ReleasedClosed, Shaped, OverdrawnBy, TooDeepFor,
      ReleasedAbove, LateAbove, NewRow, Inherited, Effective, Children, Forest, DepthFits, TotalsFit;
    InvPieces(l);
    var k := l.(lastSeen := now);
    TickKeepsInv(l, now);
    if q.parent.Some? ==> q.parent.value in l.attempts {
      TooDeepIsDepth(k, q, child);
      OverdrawnInTotals(k, q, child);
      ClockDoesNotFit(l, q, child, now);
    }
    match q.parent {
      case None =>
        NothingAbove(k.attempts, Elapsed(k));
      case Some(p) =>
        if p in l.attempts && !l.cancelled {
          ReleasedWalkIsParentCheck(k, p);
          DeadlineWalkIsParentCheck(k, p);
          InvPieces(k);
          NarrowBelowPolicy(k, p);
        }
    }
  }

  lemma NothingAbove(t: Table, elapsed: int)
    requires Forest(t)
    ensures !ReleasedAbove(t, None) && !LateAbove(t, None, elapsed)
  {
  }

  // ---------------------------------------------------------------- whether anything can be admitted

  /** The totals leave room for one more attempt that asks for no tokens, cost or output. */
  ghost predicate Slack(t: Table, ids: set<Id>, limits: Limits)
    requires ids <= t.Keys
  {
    && Sum(Charged(Attempts), t, ids) < limits.maxAttempts
    && Sum(Charged(Active), t, ids) < limits.maxConcurrency
    && Sum(Charged(Tokens), t, ids) <= limits.maxTokens
    && Sum(Charged(Cost), t, ids) <= limits.maxCost
    && Sum(Charged(Bytes), t, ids) <= limits.maxBytes
  }

  /** Something can be reserved under this parent: the condition, in snapshot numbers. */
  ghost predicate Open(l: Ledger, parent: Option<Id>, now: nat)
    requires Forest(l.attempts)
  {
    && !l.cancelled && ParentAdmits(l, parent, now)
    && DepthFits(l, parent)
    && Slack(l.attempts, l.attempts.Keys, l.policy)
    && forall a :: a in l.attempts && Above(l.attempts, parent, a) ==>
         Slack(l.attempts, Subtree(l.attempts, a), l.attempts[a].limits)
  }

  /** The request that asks for least. */
  function Least(id: Id, parent: Option<Id>): Request {
    Request(id, parent, 0, 0, 0)
  }

  lemma RoomNeedsSlack(t: Table, ids: set<Id>, limits: Limits, q: Request)
    requires ids <= t.Keys
    ensures Room(t, ids, limits, q) ==> Slack(t, ids, limits)
    ensures q.tokens == q.cost == q.bytes == 0 ==> (Room(t, ids, limits, q) <==> Slack(t, ids, limits))
  {
    assert Ask(Attempts, q) == 1 && Ask(Active, q) == 1;
    if Room(t, ids, limits, q) {
      assert Sum(Charged(Attempts), t, ids) + Ask(Attempts, q) <= Cap(Attempts, limits);
      assert Sum(Charged(Active), t, ids) + Ask(Active, q) <= Cap(Active, limits);
      assert Sum(Charged(Tokens), t, ids) + Ask(Tokens, q) <= Cap(Tokens, limits);
      assert Sum(Charged(Cost), t, ids) + Ask(Cost, q) <= Cap(Cost, limits);
      assert Sum(Charged(Bytes), t, ids) + Ask(Bytes, q) <= Cap(Bytes, limits);
    } else if q.tokens == q.cost == q.bytes == 0 && Slack(t, ids, limits) {
      forall m: Meter ensures Sum(Charged(m), t, ids) + Ask(m, q) <= Cap(m, limits) {
        match m {
          case Attempts =>
          case Tokens =>
          case Cost =>
          case Bytes =>
          case Active =>
        }
      }
    }
  }

  /** What fits needs slack everywhere above. */
  lemma FitsNeedsOpen(l: Ledger, q: Request, child: Option<Limits>)
    requires Forest(l.attempts) && (q.parent.Some? ==> q.parent.value in l.attempts)
    ensures TotalsFit(l, q, Effective(l, q.parent, child)) ==>
      && Slack(l.attempts, l.attempts.Keys, l.policy)
      && forall a :: a in l.attempts && Above(l.attempts, q.parent, a) ==>
           Slack(l.attempts, Subtree(l.attempts, a), l.attempts[a].limits)
  {
    hide Room, Slack, Forest, Above;
    RoomNeedsSlack(l.attempts, l.attempts.Keys, l.policy, q);
    forall a | a in l.attempts && Above(l.attempts, q.parent, a)
      ensures Room(l.attempts, Subtree(l.attempts, a), l.attempts[a].limits, q) ==>
        Slack(l.attempts, Subtree(l.attempts, a), l.attempts[a].limits)
    {
      RoomNeedsSlack(l.attempts, Subtree(l.attempts, a), l.attempts[a].limits, q);
    }
  }

  lemma OpenFitsLeast(l: Ledger, id: Id, parent: Option<Id>)
    requires Forest(l.attempts) && (parent.Some? ==> parent.value in l.attempts)
    requires Slack(l.attempts, l.attempts.Keys, l.policy)
    requires forall a :: a in l.attempts && Above(l.attempts, parent, a) ==>
      Slack(l.attempts, Subtree(l.attempts, a), l.attempts[a].limits)
    ensures TotalsFit(l, Least(id, parent), Inherited(l, parent))
  {
    hide Slack, Forest;
    var q, t := Least(id, parent), l.attempts;
    RoomNeedsSlack(t, t.Keys, l.policy, q);
    forall a | a in t && Above(t, parent, a) ensures Room(t, Subtree(t, a), t[a].limits, q) {
      RoomNeedsSlack(t, Subtree(t, a), t[a].limits, q);
    }
    match parent {
      case None => RoomAlone(t, t.Keys, l.policy, q);
      case Some(p) =>
        assert Above(t, parent, p);
        RoomAlone(t, Subtree(t, p), t[p].limits, q);
    }
  }

  lemma RoomAlone(t: Table, ids: set<Id>, limits: Limits, q: Request)
    requires ids <= t.Keys && Room(t, ids, limits, q)
    ensures Room(t, {}, limits, q)
  {
    forall m: Meter ensures Sum(Charged(m), t, {}) + Ask(m, q) <= Cap(m, limits) {
      assert Sum(Charged(m), t, ids) + Ask(m, q) <= Cap(m, limits);
    }
  }

  lemma InheritedIsWithin(l: Ledger, parent: Option<Id>)
    requires parent.Some? ==> parent.value in l.attempts
    ensures Effective(l, parent, None) == Inherited(l, parent)
    ensures Effective(l, parent, None).IsWithin(Inherited(l, parent))
  {
  }

  /** The least request under a parent is accepted exactly when the parent is open. */
  lemma LeastRequestGate(l: Ledger, id: Id, parent: Option<Id>, now: nat)
    requires Inv(l) && l.lastSeen <= now && id !in l.attempts
    ensures Forest(l.attempts)
    ensures Step(l, Reserve(Least(id, parent), None), now).1.Accepted() <==> Open(l, parent, now)
  {
    hide Caps, Receipts, Grants, Narrow, Fanout, Shallow, ReleasedClosed, Shaped, Forest, Slack, DepthFits, TotalsFit,
      Effective, Inherited, Step, Children, Above;
    InvPieces(l);
    ReserveGate(l, Least(id, parent), None, now);
    if parent.Some? ==> parent.value in l.attempts {
      InheritedIsWithin(l, parent);
      FitsNeedsOpen(l, Least(id, parent), None);
      if Open(l, parent, now) {
        OpenFitsLeast(l, id, parent);
      }
    }
  }

  ghost predicate Admissible(l: Ledger, q: Request, child: Option<Limits>, now: nat)
    requires Forest(l.attempts)
  {
    q.id !in l.attempts && Step(l, Reserve(q, child), now).1.Accepted()
  }

  /** Some new reservation under a parent can be accepted exactly when the parent is open. */
  lemma AdmissionIsOpen(l: Ledger, parent: Option<Id>, now: nat)
    requires Inv(l) && l.lastSeen <= now
    ensures Forest(l.attempts)
    ensures (exists q: Request, child: Option<Limits> :: q.parent == parent && Admissible(l, q, child, now)) <==>
      Open(l, parent, now)
  {
    hide Caps, Receipts, Grants, Narrow, Fanout, Shallow, ReleasedClosed, Shaped, Forest, Slack, DepthFits, TotalsFit,
      Effective, Inherited, Step, Children, Above;
    InvPieces(l);
    forall q: Request, child: Option<Limits> | q.parent == parent && Admissible(l, q, child, now)
      ensures Open(l, parent, now)
    {
      ReserveGate(l, q, child, now);
      FitsNeedsOpen(l, q, child);
    }
    if Open(l, parent, now) {
      var id := FreshId(l.attempts.Keys);
      LeastRequestGate(l, id, parent, now);
      assert Admissible(l, Least(id, parent), None, now);
    }
  }

  /** Whatever can be reserved under some parent, something can be reserved at the root. */
  lemma RootIsMostOpen(l: Ledger, parent: Option<Id>, now: nat)
    requires Inv(l)
    ensures Forest(l.attempts) && (Open(l, parent, now) ==> Open(l, None, now))
  {
    hide Caps, Receipts, Grants, Narrow, Fanout, Shallow, ReleasedClosed, Shaped, Slack, Children;
    if parent.Some? && parent.value in l.attempts {
      InvPieces(l);
      NarrowBelowPolicy(l, parent.value);
    }
  }

  lemma SlackInSnapshot(t: Table, ids: set<Id>, limits: Limits)
    requires ids <= t.Keys
    ensures
      var s := SnapshotOf(t, ids, limits);
      Slack(t, ids, limits) <==>
        !s.overBudget && s.attempts < limits.maxAttempts && s.active < limits.maxConcurrency
  {
    if Slack(t, ids, limits) {
      forall m: Meter ensures Sum(Charged(m), t, ids) <= Cap(m, limits) {
        match m {
          case Attempts =>
          case Tokens =>
          case Cost =>
          case Bytes =>
          case Active =>
        }
      }
    } else if Within(t, ids, limits) {
      assert Sum(Charged(Tokens), t, ids) <= Cap(Tokens, limits);
      assert Sum(Charged(Cost), t, ids) <= Cap(Cost, limits);
      assert Sum(Charged(Bytes), t, ids) <= Cap(Bytes, limits);
    }
  }

  /**
   Whether anything at all can be admitted, in snapshot numbers: exactly while the engagement runs, is not over
   budget, and has an attempt and an active place left. A reported overrun matters only through the totals.
   */
  lemma AdmissionInSnapshot(l: Ledger, now: nat)
    requires Inv(l) && l.lastSeen <= now
    ensures Forest(l.attempts)
    ensures
      var s := SnapshotOf(l.attempts, l.attempts.Keys, l.policy);
      (exists q: Request, child: Option<Limits> :: Admissible(l, q, child, now)) <==>
        && !l.cancelled && now - l.started <= l.policy.maxElapsed
        && !s.overBudget && s.attempts < l.policy.maxAttempts && s.active < l.policy.maxConcurrency
  {
    hide Inv, Slack, Forest, SnapshotOf, Step, Children;
    InvIsForest(l);
    SlackInSnapshot(l.attempts, l.attempts.Keys, l.policy);
    AdmissionIsOpen(l, None, now);
    forall q: Request, child: Option<Limits> | Admissible(l, q, child, now) ensures Open(l, None, now) {
      AdmissionIsOpen(l, q.parent, now);
      RootIsMostOpen(l, q.parent, now);
    }
  }

  lemma {:induction false} LongerThanAll(ids: set<Id>) returns (n: nat)
    ensures forall x :: x in ids ==> |x.text| < n
  {
    n := 0;
    if ids != {} {
      var x :| x in ids;
      var m := LongerThanAll(ids - {x});
      n := if |x.text| < m then m else |x.text| + 1;
    }
  }

  lemma FreshId(ids: set<Id>) returns (id: Id)
    ensures id !in ids
  {
    var n := LongerThanAll(ids);
    id := Id(seq(n, i => 'x'));
  }

  /** While the ledger is over budget, every new reservation is denied. */
  lemma OverBudgetBlocksAdmission(l: Ledger, q: Request, child: Option<Limits>, now: nat)
    requires Inv(l) && SnapshotOf(l.attempts, l.attempts.Keys, l.policy).overBudget
    requires q.id !in l.attempts && l.lastSeen <= now
    ensures Step(l, Reserve(q, child), now).1.Denied?
  {
    hide Caps, Receipts, Grants, Narrow, Fanout, Shallow, ReleasedClosed, Shaped, ReserveDenial, Children, DepthFits;
    InvPieces(l);
    ReserveGate(l, q, child, now);
    if Step(l, Reserve(q, child), now).1.Accepted() {
      RoomIsWithin(l.attempts, l.attempts.Keys, l.policy, q);
    }
  }

  /** While a subtree exceeds its own limits, every new reservation below its root is denied. */
  lemma OverdrawnSubtreeBlocksBelow(l: Ledger, a: Id, p: Id, q: Request, child: Option<Limits>, now: nat)
    requires Inv(l) && p in l.attempts && Descends(l.attempts, p, a) && a in l.attempts
    requires !Within(l.attempts, Subtree(l.attempts, a), l.attempts[a].limits)
    requires q.id !in l.attempts && q.parent == Some(p) && l.lastSeen <= now
    ensures Step(l, Reserve(q, child), now).1.Denied?
  {
    hide Caps, Receipts, Grants, Narrow, Fanout, Shallow, ReleasedClosed, Shaped, ReserveDenial, Children, DepthFits,
      Within, Room;
    InvPieces(l);
    ReserveGate(l, q, child, now);
    if Step(l, Reserve(q, child), now).1.Accepted() {
      assert Above(l.attempts, q.parent, a);
      RoomIsWithin(l.attempts, Subtree(l.attempts, a), l.attempts[a].limits, q);
    }
  }

  lemma RoomIsWithin(t: Table, ids: set<Id>, limits: Limits, q: Request)
    requires ids <= t.Keys && Room(t, ids, limits, q)
    ensures Within(t, ids, limits)
  {
    forall m: Meter ensures Sum(Charged(m), t, ids) <= Cap(m, limits) {
      assert Sum(Charged(m), t, ids) + Ask(m, q) <= Cap(m, limits);
    }
  }

  // ---------------------------------------------------------------- release

  /** A release is accepted exactly for an undispatched attempt all of whose descendants are released. */
  lemma ReleaseGate(l: Ledger, x: Id, now: nat)
    requires Inv(l) && l.lastSeen <= now
    ensures Step(l, Release(x), now).1.Accepted() <==>
      && x in l.attempts && !l.attempts[x].state.EverDispatched()
      && forall y :: y in l.attempts && y != x && Descends(l.attempts, y, x) ==> l.attempts[y].state.Released?
  {
    hide Caps, Receipts, Grants, Narrow, Fanout, Shallow, ReleasedClosed, Shaped;
  }

  // ---------------------------------------------------------------- reconcile

  /** What a receipt may establish: its own prerequisite again, or a first one under an unused id. */
  ghost predicate MayEstablish(l: Ledger, attempt: Id, claim: Claim) {
    Matches(l.prerequisites, claim, attempt)
    || (claim.receipt !in l.prerequisites && !HasPrerequisite(l.prerequisites, attempt))
  }

  /**
   A new receipt is accepted exactly when its attempt is dispatched and not settled, it repeats everything the row
   already knows, and it retains no more output than was reserved.
   */
  lemma ReconcileGate(l: Ledger, r: Receipt, establishes: Option<Claim>, now: nat)
    requires Inv(l) && l.lastSeen <= now && r.id !in l.receipts && WellFormed(Reconcile(r, establishes))
    ensures Step(l, Reconcile(r, establishes), now).1.Accepted() <==>
      && r.attempt in l.attempts
      && var row := l.attempts[r.attempt];
         && row.state.EverDispatched() && !row.state.Settled?
         && (row.outcome.Some? ==> row.outcome.value == r.outcome)
         && Keeps(row.tokens, r.tokens) && Keeps(row.cost, r.cost) && Keeps(row.bytes, r.bytes)
         && (r.bytes.Some? ==> r.bytes.value <= row.request.bytes)
         && (establishes.Some? ==> MayEstablish(l, r.attempt, establishes.value))
  {
    hide Caps, Receipts, Grants, Narrow, Fanout, Shallow, ReleasedClosed, HasPrerequisite, Matches;
    if r.attempt in l.attempts {
      assert RowShape(l.attempts[r.attempt]);
    }
    MatchesIsStored(l.prerequisites, establishes, r.attempt);
  }

  lemma MatchesIsStored(ps: map<Id, Prerequisite>, claim: Option<Claim>, source: Id)
    ensures claim.Some? && Matches(ps, claim.value, source) ==> claim.value.receipt in ps
  {
  }
}
