/** Limits only narrow and releases only spread down the forest, so the ancestor walks decide what one row decides. */
module LedgerWalks {
  import opened Common
  import opened BudgetTypes
  import opened AttemptForest
  import opened LedgerSpec
  import opened LedgerInvariant
  import opened LedgerRuns
  import opened LedgerTheorems

  // ---------------------------------------------------------------- remaining time

  lemma {:induction false} ChainRemainingIsOwn(l: Ledger, x: Id, elapsed: int, sofar: int)
    requires Forest(l.attempts) && Narrow(l) && x in l.attempts
    ensures
      var own := l.attempts[x].limits.maxElapsed - elapsed;
      ChainRemaining(l.attempts, x, elapsed, sofar) == if own < sofar then own else sofar
    decreases l.attempts[x].depth
  {
    var row := l.attempts[x];
    assert row.limits.IsWithin(Inherited(l, row.request.parent));
    if row.request.parent.Some? {
      var own := row.limits.maxElapsed - elapsed;
      ChainRemainingIsOwn(l, row.request.parent.value, elapsed, if own < sofar then own else sofar);
    }
  }

  lemma {:induction false} NarrowBelowPolicy(l: Ledger, x: Id)
    requires Forest(l.attempts) && Narrow(l) && x in l.attempts
    ensures l.attempts[x].limits.IsWithin(l.policy)
    decreases l.attempts[x].depth
  {
    var row := l.attempts[x];
    assert row.limits.IsWithin(Inherited(l, row.request.parent));
    if row.request.parent.Some? {
      NarrowBelowPolicy(l, row.request.parent.value);
    }
  }

  /** The minimum over the ancestor chain is the attempt's own allowance, clipped at zero. */
  lemma RemainingIsOwn(l: Ledger, x: Id, now: nat)
    requires Inv(l) && x in l.attempts && l.lastSeen <= now
    ensures Step(l, RemainingElapsed(Some(x)), now).1
         == Remaining(AtLeastZero(l.attempts[x].limits.maxElapsed - (now - l.started)))
  {
    hide Caps, Receipts, Grants, Narrow, Fanout, Shallow, ReleasedClosed, Shaped;
    var k := l.(lastSeen := now);
    TickKeepsInv(l, now);
    ChainRemainingIsOwn(k, x, Elapsed(k), k.policy.maxElapsed - Elapsed(k));
    NarrowBelowPolicy(k, x);
  }

  /** A descendant never has more time left than an ancestor. */
  lemma RemainingShrinksDownwards(l: Ledger, x: Id, a: Id, now: nat)
    requires Inv(l) && x in l.attempts && Descends(l.attempts, x, a) && l.lastSeen <= now
    ensures a in l.attempts
    ensures Step(l, RemainingElapsed(Some(x)), now).1.Remaining? && Step(l, RemainingElapsed(Some(a)), now).1.Remaining?
    ensures Step(l, RemainingElapsed(Some(x)), now).1.ms <= Step(l, RemainingElapsed(Some(a)), now).1.ms
  {
    hide Caps, Receipts, Grants, Narrow, Fanout, Shallow, ReleasedClosed, Shaped, RemainingAction;
    NarrowBelow(l, x, a);
    RemainingIsOwn(l, x, now);
    RemainingIsOwn(l, a, now);
  }

  /** Over any run the time left for an attempt never grows. */
  lemma RemainingNeverGrows(h: History, calls: seq<Call>, x: Id, now: nat, later: nat)
    requires Sound(h) && x in h.ledger.attempts && h.ledger.lastSeen <= now <= later
    requires Run(h, calls).ledger.lastSeen <= later
    ensures
      var first := Step(h.ledger, RemainingElapsed(Some(x)), now).1;
      var second := Step(Run(h, calls).ledger, RemainingElapsed(Some(x)), later).1;
      first.Remaining? && second.Remaining? && second.ms <= first.ms
  {
    hide Caps, Receipts, Grants, Narrow, Fanout, Shallow, ReleasedClosed, Shaped, RemainingAction, LogMatches,
      SourcesFirst, Run;
    RunProgress(h, calls);
    RemainingIsOwn(h.ledger, x, now);
    RemainingIsOwn(Run(h, calls).ledger, x, later);
  }

  // ---------------------------------------------------------------- the dispatch walk

  lemma {:induction false} WalkWithoutReleases(l: Ledger, x: Id)
    requires Forest(l.attempts) && Narrow(l) && ReleasedClosed(l) && !l.cancelled
    requires x in l.attempts && !l.attempts[x].state.Released?
    ensures WalkDenial(l.attempts, x, Elapsed(l))
         == if Elapsed(l) > l.attempts[x].limits.maxElapsed then Some(SubtreeDeadlineExpired) else None
    decreases l.attempts[x].depth
  {
    var row := l.attempts[x];
    assert row.limits.IsWithin(Inherited(l, row.request.parent));
    if row.request.parent.Some? {
      assert !HasReleasedParent(l.attempts, x);
      WalkWithoutReleases(l, row.request.parent.value);
    }
  }

  /**
   A reserved attempt of a running engagement is refused for time exactly when its own allowance is used up,
   and never for an ancestor.
   */
  lemma DispatchWalkIsOwnCheck(l: Ledger, x: Id, approval: Option<Approval>, claim: Option<Claim>)
    requires Inv(l) && !l.cancelled && x in l.attempts && l.attempts[x].state.Reserved?
    ensures
      var why := DispatchDenial(l, x, approval, claim);
      && (why == Some(DeadlineExpired) || why == Some(SubtreeDeadlineExpired)
          <==> Elapsed(l) > l.attempts[x].limits.maxElapsed)
      && why != Some(AncestorUnavailable)
  {
    hide Caps, Receipts, Grants, Narrow, Fanout, Shallow, ReleasedClosed, Shaped, WalkDenial;
    WalkWithoutReleases(l, x);
    NarrowBelowPolicy(l, x);
  }

  // ---------------------------------------------------------------- the admission walk

  /** Until cancellation some ancestor is released exactly when the parent is. */
  lemma ReleasedWalkIsParentCheck(l: Ledger, p: Id)
    requires Inv(l) && !l.cancelled && p in l.attempts
    ensures ReleasedAbove(l.attempts, Some(p)) <==> l.attempts[p].state.Released?
  {
    hide Caps, Receipts, Grants, Narrow, Fanout, Shallow, Shaped, ReleasedClosed;
    if l.attempts[p].state.Released? {
      assert Above(l.attempts, Some(p), p);
    }
    forall a | a in l.attempts && Above(l.attempts, Some(p), a) && l.attempts[a].state.Released?
      ensures l.attempts[p].state.Released?
    {
      ReleasedBelow(l, p, a);
    }
  }

  /** Some ancestor's time is up exactly when the parent's is. */
  lemma DeadlineWalkIsParentCheck(l: Ledger, p: Id)
    requires Inv(l) && p in l.attempts
    ensures LateAbove(l.attempts, Some(p), Elapsed(l)) <==> Elapsed(l) > l.attempts[p].limits.maxElapsed
  {
    hide Caps, Receipts, Grants, Narrow, Fanout, Shallow, Shaped, ReleasedClosed;
    if Elapsed(l) > l.attempts[p].limits.maxElapsed {
      assert Above(l.attempts, Some(p), p);
    }
    forall a | a in l.attempts && Above(l.attempts, Some(p), a) && Elapsed(l) > l.attempts[a].limits.maxElapsed
      ensures Elapsed(l) > l.attempts[p].limits.maxElapsed
    {
      NarrowBelow(l, p, a);
    }
  }
}
