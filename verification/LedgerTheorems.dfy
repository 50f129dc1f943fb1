/** What the ledger promises over every run. */
module LedgerTheorems {
  import opened Common
  import opened BudgetTypes
  import opened AttemptForest
  import opened Sums
  import opened LedgerSpec
  import opened LedgerInvariant
  import opened LedgerRuns

  // ---------------------------------------------------------------- budget caps

  /** Meters whose caps no receipt can push past. */
  predicate Hard(m: Meter) {
    m.Attempts? || m.Bytes? || m.Active?
  }

  lemma HardMetersNeverOverrun(m: Meter, t: Table, ids: set<Id>)
    requires Shaped(t) && ids <= t.Keys && Hard(m)
    ensures Sum(Over(m), t, ids) == 0
  {
    forall x | x in ids ensures Value(Over(m), t[x]) == 0 {
      assert RowShape(t[x]);
    }
    SumZero(Over(m), t, ids);
  }

  lemma CapsHold(l: Ledger, m: Meter)
    requires Inv(l)
    ensures Sum(Charged(m), l.attempts, l.attempts.Keys)
         <= Cap(m, l.policy) + Sum(Over(m), l.attempts, l.attempts.Keys)
    ensures forall a :: a in l.attempts ==>
      Sum(Charged(m), l.attempts, Subtree(l.attempts, a))
      <= Cap(m, l.attempts[a].limits) + Sum(Over(m), l.attempts, Subtree(l.attempts, a))
    ensures Hard(m) ==> Sum(Charged(m), l.attempts, l.attempts.Keys) <= Cap(m, l.policy)
    ensures Hard(m) ==> forall a :: a in l.attempts ==>
      Sum(Charged(m), l.attempts, Subtree(l.attempts, a)) <= Cap(m, l.attempts[a].limits)
  {
    hide Receipts, Grants, Narrow, Fanout, Shallow, ReleasedClosed, Shaped;
    if Hard(m) {
      HardMetersNeverOverrun(m, l.attempts, l.attempts.Keys);
    }
    forall a | a in l.attempts
      ensures Sum(Charged(m), l.attempts, Subtree(l.attempts, a))
           <= Cap(m, l.attempts[a].limits) + Sum(Over(m), l.attempts, Subtree(l.attempts, a))
      ensures Hard(m) ==>
        Sum(Charged(m), l.attempts, Subtree(l.attempts, a)) <= Cap(m, l.attempts[a].limits)
    {
      assert Capped(l.attempts, Subtree(l.attempts, a), l.attempts[a].limits);
      if Hard(m) {
        HardMetersNeverOverrun(m, l.attempts, Subtree(l.attempts, a));
      }
    }
  }

  /** In every reachable state the ledger and every subtree stay within their caps, up to reported overruns. */
  lemma CapsInEveryRun(policy: Policy, start: nat, calls: seq<Call>, m: Meter)
    ensures
      var l := Run(Start(policy, start), calls).ledger;
      var t := l.attempts;
      && Sum(Charged(m), t, t.Keys) <= Cap(m, policy.limits) + Sum(Over(m), t, t.Keys)
      && (forall a :: a in t ==>
            Sum(Charged(m), t, Subtree(t, a)) <= Cap(m, t[a].limits) + Sum(Over(m), t, Subtree(t, a)))
      && (Hard(m) ==> Sum(Charged(m), t, t.Keys) <= Cap(m, policy.limits))
      && (Hard(m) ==> forall a :: a in t ==> Sum(Charged(m), t, Subtree(t, a)) <= Cap(m, t[a].limits))
  {
    hide Caps, Receipts, Grants, Narrow, Fanout, Shallow, ReleasedClosed, Shaped, LogMatches, SourcesFirst;
    var h := Start(policy, start);
    RunProgress(h, calls);
    CapsHold(Run(h, calls).ledger, m);
  }

  /** A receipt that reports more tokens or more cost than its attempt reserved. */
  ghost predicate ReportsOverrun(l: Ledger, r: Id) {
    && r in l.receipts && l.receipts[r].attempt in l.attempts
    && var receipt, q := l.receipts[r], l.attempts[l.receipts[r].attempt].request;
       || (receipt.tokens.Some? && receipt.tokens.value > q.tokens)
       || (receipt.cost.Some? && receipt.cost.value > q.cost)
  }

  /** The ledger is over budget only if a stored receipt reported an overrun. */
  lemma OverBudgetNeedsAnOverrun(l: Ledger)
    requires Inv(l) && SnapshotOf(l.attempts, l.attempts.Keys, l.policy).overBudget
    ensures exists r :: ReportsOverrun(l, r)
  {
    hide Caps, Grants, Narrow, Fanout, Shallow, ReleasedClosed;
    var t := l.attempts;
    var m: Meter :| Sum(Charged(m), t, t.Keys) > Cap(m, l.policy);
    CapsHold(l, m);
    var x := PositiveSumHasPositiveRow(Over(m), t, t.Keys);
    assert RowShape(t[x]);
    var r :| r in l.receipts && l.receipts[r].attempt == x && Repeats(l.receipts[r], t[x]);
    assert ReportsOverrun(l, r);
  }

  /** In every reachable state, a snapshot that is over budget is backed by a stored receipt with an overrun. */
  lemma OverBudgetInEveryRun(policy: Policy, start: nat, calls: seq<Call>, now: nat)
    ensures
      var l := Run(Start(policy, start), calls).ledger;
      var reply := Step(l, TakeSnapshot, now).1;
      reply.Counted? && reply.snapshot.overBudget ==> exists r :: ReportsOverrun(l, r)
  {
    hide Caps, Receipts, Grants, Narrow, Fanout, Shallow, ReleasedClosed, Shaped, LogMatches, SourcesFirst;
    var l := Run(Start(policy, start), calls).ledger;
    var reply := Step(l, TakeSnapshot, now).1;
    if reply.Counted? && reply.snapshot.overBudget {
      OverBudgetNeedsAnOverrun(l);
    }
  }

  // ---------------------------------------------------------------- one dispatch per attempt

  /** Call i of the run is a dispatch that was accepted. */
  ghost predicate Dispatches(h: History, calls: seq<Call>, i: nat)
    requires Sound(h)
  {
    i < |calls| && calls[i].op.MarkDispatched? && Replies(h, calls)[i].Accepted()
  }

  lemma RunSplit(h: History, calls: seq<Call>, i: nat)
    requires Sound(h) && i < |calls|
    ensures Replies(h, calls)[i] == Step(Run(h, calls[..i]).ledger, calls[i].op, calls[i].now).1
    ensures Run(h, calls[..i + 1]) == Advance(Run(h, calls[..i]), calls[i])
  {
    hide Sound, Advance, Step;
    assert calls == calls[..i] + calls[i..];
    RunConcat(h, calls[..i], calls[i..]);
    assert calls[..i + 1] == calls[..i] + [calls[i]];
    RunConcat(h, calls[..i], [calls[i]]);
    RunOne(Run(h, calls[..i]), calls[i]);
  }

  lemma RunOne(h: History, c: Call)
    requires Sound(h)
    ensures Run(h, [c]) == Advance(h, c)
  {
    hide Caps, Receipts, Grants, Narrow, Fanout, Shallow, ReleasedClosed, Shaped, LogMatches, SourcesFirst, Step;
    AdvanceKeepsSound(h, c);
    assert [c][1..] == [];
    assert Run(Advance(h, c), []) == Advance(h, c);
  }

  /** What an accepted dispatch leaves behind for good. */
  ghost predicate Spent(l: Ledger, op: Op)
    requires op.MarkDispatched?
  {
    && WasDispatched(l.attempts, op.id)
    && (op.approval.Some? ==> op.approval.value.receipt in l.approvals)
    && (op.claim.Some? ==>
          && op.claim.value.receipt in l.prerequisites
          && l.prerequisites[op.claim.value.receipt].consumedBy.Some?)
  }

  lemma AcceptedDispatchSpends(l: Ledger, op: Op, now: nat)
    requires Inv(l) && op.MarkDispatched? && Step(l, op, now).1.Accepted()
    ensures Spent(Step(l, op, now).0, op)
  {
    hide Caps, Receipts, Grants, Narrow, Fanout, Shallow, ReleasedClosed, Shaped, DispatchDenial;
    AcceptedDispatch(l.(lastSeen := now), op.id, op.approval, op.claim);
  }

  lemma SpentStays(l: Ledger, k: Ledger, op: Op)
    requires op.MarkDispatched? && Spent(l, op) && Progress(l, k)
    ensures Spent(k, op)
  {
    EvolutionKeepsUse(l.attempts, k.attempts);
  }

  /** Nothing that was spent can be spent again. */
  lemma SpentIsRefused(l: Ledger, earlier: Op, op: Op, now: nat)
    requires Inv(l) && earlier.MarkDispatched? && Spent(l, earlier)
    requires op.MarkDispatched? && Step(l, op, now).1.Accepted()
    ensures op.id != earlier.id
    ensures op.approval.Some? && earlier.approval.Some? ==>
      op.approval.value.receipt != earlier.approval.value.receipt
    ensures op.claim.Some? && earlier.claim.Some? ==> op.claim.value.receipt != earlier.claim.value.receipt
  {
    hide Caps, Receipts, Grants, Narrow, Fanout, Shallow, ReleasedClosed, Shaped, DispatchDenial;
    AcceptedDispatch(l.(lastSeen := now), op.id, op.approval, op.claim);
  }

  /** Over any run, restarts included, two accepted dispatches never share an attempt, an approval or a prerequisite. */
  lemma DispatchedAtMostOnce(h: History, calls: seq<Call>, i: nat, j: nat)
    requires Sound(h) && i < j && Dispatches(h, calls, i) && Dispatches(h, calls, j)
    ensures calls[i].op.id != calls[j].op.id
    ensures calls[i].op.approval.Some? && calls[j].op.approval.Some? ==>
      calls[i].op.approval.value.receipt != calls[j].op.approval.value.receipt
    ensures calls[i].op.claim.Some? && calls[j].op.claim.Some? ==>
      calls[i].op.claim.value.receipt != calls[j].op.claim.value.receipt
  {
    hide Caps, Receipts, Grants, Narrow, Fanout, Shallow, ReleasedClosed, Shaped, LogMatches, SourcesFirst, Spent,
      Progress, Step, Run;
    RunSplit(h, calls, i);
    RunSplit(h, calls, j);
    var before, after, later := Run(h, calls[..i]), Run(h, calls[..i + 1]), Run(h, calls[..j]);
    assert calls[..j] == calls[..i + 1] + calls[i + 1..j];
    RunConcat(h, calls[..i + 1], calls[i + 1..j]);
    AcceptedDispatchSpends(before.ledger, calls[i].op, calls[i].now);
    RunProgress(after, calls[i + 1..j]);
    SpentStays(after.ledger, later.ledger, calls[i].op);
    SpentIsRefused(later.ledger, calls[i].op, calls[j].op, calls[j].now);
  }

  // ---------------------------------------------------------------- prerequisite chains

  /** Attempt b consumed the prerequisite that attempt a established. */
  ghost predicate Feeds(ps: map<Id, Prerequisite>, a: Id, b: Id) {
    exists p :: p in ps && ps[p].source == a && ps[p].consumedBy == Some(b)
  }

  /** The relation is a partial bijection from completed attempts, and follows the dispatch order. */
  lemma FeedsInOrder(h: History, a: Id, b: Id)
    requires Sound(h) && Feeds(h.ledger.prerequisites, a, b)
    ensures a in h.log && b in h.log && Position(h.log, a) < Position(h.log, b)
    ensures WasCompleted(h.ledger.attempts, a)
    ensures forall c :: Feeds(h.ledger.prerequisites, a, c) ==> c == b
    ensures forall c :: Feeds(h.ledger.prerequisites, c, b) ==> c == a
  {
    hide Caps, Receipts, Narrow, Fanout, Shallow, ReleasedClosed, Shaped, LogMatches, ApprovalsOnce, ApprovalsUsed;
    var ps := h.ledger.prerequisites;
    var p :| p in ps && ps[p].source == a && ps[p].consumedBy == Some(b);
    forall c | Feeds(ps, a, c) ensures c == b {
      var q :| q in ps && ps[q].source == a && ps[q].consumedBy == Some(c);
      assert p == q;
    }
    forall c | Feeds(ps, c, b) ensures c == a {
      var q :| q in ps && ps[q].source == c && ps[q].consumedBy == Some(b);
      assert p == q;
    }
  }

  /** Following prerequisites never comes back: the attempts of a chain are all different. */
  lemma {:induction false} ChainsAreAcyclic(h: History, chain: seq<Id>)
    requires Sound(h) && forall i :: 0 <= i < |chain| - 1 ==> Feeds(h.ledger.prerequisites, chain[i], chain[i + 1])
    ensures Distinct(chain)
    ensures |chain| > 1 ==> forall i, j :: 0 <= i < j < |chain| ==>
      && chain[i] in h.log && chain[j] in h.log
      && Position(h.log, chain[i]) < Position(h.log, chain[j])
    decreases |chain|
  {
    hide Inv, LogMatches, SourcesFirst, Feeds;
    if |chain| > 1 {
      var n := |chain|;
      var init := chain[..n - 1];
      assert Feeds(h.ledger.prerequisites, chain[n - 2], chain[n - 2 + 1]);
      FeedsInOrder(h, chain[n - 2], chain[n - 1]);
      forall i | 0 <= i < |init| - 1 ensures Feeds(h.ledger.prerequisites, init[i], init[i + 1]) {
        assert Feeds(h.ledger.prerequisites, chain[i], chain[i + 1]);
      }
      ChainsAreAcyclic(h, init);
      forall i, j | 0 <= i < j < n
        ensures chain[i] in h.log && chain[j] in h.log
        ensures Position(h.log, chain[i]) < Position(h.log, chain[j])
      {
        if j < n - 1 {
          assert init[i] == chain[i] && init[j] == chain[j];
        } else if i < n - 2 {
          assert init[i] == chain[i] && init[n - 2] == chain[n - 2];
        }
      }
    }
  }

  // ---------------------------------------------------------------- size of a subtree

  lemma {:induction false} NarrowBelow(l: Ledger, x: Id, a: Id)
    requires Forest(l.attempts) && Narrow(l) && x in l.attempts && Descends(l.attempts, x, a)
    ensures a in l.attempts && l.attempts[x].limits.IsWithin(l.attempts[a].limits)
    decreases l.attempts[x].depth
  {
    if x != a {
      var p := l.attempts[x].request.parent.value;
      NarrowBelow(l, p, a);
      assert l.attempts[x].limits.IsWithin(Inherited(l, l.attempts[x].request.parent));
    }
  }

  ghost function ChildrenOf(t: Table, parents: set<Id>): set<Id> {
    set x | x in t && t[x].request.parent.Some? && t[x].request.parent.value in parents
  }

  lemma ChildrenOfSplit(t: Table, parents: set<Id>, p: Id)
    requires p in parents
    ensures |ChildrenOf(t, parents)| <= |ChildrenOf(t, parents - {p})| + |Children(t, p)|
  {
    assert ChildrenOf(t, parents) == ChildrenOf(t, parents - {p}) + Children(t, p);
  }

  lemma {:induction false} ChildrenOfBound(t: Table, parents: set<Id>, k: nat)
    requires forall p :: p in parents ==> |Children(t, p)| <= k
    ensures |ChildrenOf(t, parents)| <= k * |parents|
  {
    if parents == {} {
      assert ChildrenOf(t, parents) == {};
    } else {
      var p :| p in parents;
      var rest := parents - {p};
      ChildrenOfBound(t, rest, k);
      ChildrenOfSplit(t, parents, p);
      assert |parents| == |rest| + 1 && k * |parents| == k * |rest| + k;
    }
  }

  /** k to the n. */
  function Power(k: nat, n: nat): nat {
    if n == 0 then 1 else k * Power(k, n - 1)
  }

  /** 1 + k + ... + k to the n. */
  function Geometric(k: nat, n: nat): nat {
    if n == 0 then 1 else Geometric(k, n - 1) + Power(k, n)
  }

  ghost function Level(t: Table, a: Id, n: nat): set<Id>
    requires Forest(t) && a in t
  {
    set x | x in t && Descends(t, x, a) && t[x].depth == t[a].depth + n
  }

  ghost function UpTo(t: Table, a: Id, n: nat): set<Id>
    requires Forest(t) && a in t
  {
    set x | x in t && Descends(t, x, a) && t[x].depth <= t[a].depth + n
  }

  lemma LevelZero(t: Table, a: Id)
    requires Forest(t) && a in t
    ensures UpTo(t, a, 0) <= Level(t, a, 0) <= {a}
  {
    forall x | x in t && Descends(t, x, a) ensures t[a].depth <= t[x].depth && (t[a].depth == t[x].depth ==> x == a) {
      DescendsFacts(t, x, a);
    }
  }

  lemma LevelBelow(t: Table, a: Id, n: nat)
    requires Forest(t) && a in t && n > 0
    ensures Level(t, a, n) <= ChildrenOf(t, Level(t, a, n - 1))
  {
    forall x | x in Level(t, a, n) ensures x in ChildrenOf(t, Level(t, a, n - 1)) {
      assert Descends(t, x, a) && x != a;
      assert t[x].request.parent.value in Level(t, a, n - 1);
    }
  }

  lemma {:induction false} LevelBound(l: Ledger, a: Id, n: nat)
    requires Forest(l.attempts) && Narrow(l) && Fanout(l) && a in l.attempts
    ensures |Level(l.attempts, a, n)| <= Power(l.attempts[a].limits.maxChildren, n)
    decreases n
  {
    hide Narrow, Children, ChildrenOf, Forest;
    var t, k := l.attempts, l.attempts[a].limits.maxChildren;
    if n == 0 {
      LevelZero(t, a);
      SubsetSize(Level(t, a, 0), {a});
    } else {
      var above := Level(t, a, n - 1);
      LevelBound(l, a, n - 1);
      forall p | p in above ensures |Children(t, p)| <= k {
        NarrowBelow(l, p, a);
      }
      ChildrenOfBound(t, above, k);
      LevelBelow(t, a, n);
      SubsetSize(Level(t, a, n), ChildrenOf(t, above));
      MultiplyBound(k, |above|, Power(k, n - 1));
    }
  }

  lemma MultiplyBound(k: nat, m: nat, n: nat)
    requires m <= n
    ensures k * m <= k * n
  {
  }

  lemma {:induction false} SubsetSize(s: set<Id>, u: set<Id>)
    requires s <= u
    ensures |s| <= |u|
  {
    if s != {} {
      var x :| x in s;
      SubsetSize(s - {x}, u - {x});
    }
  }

  lemma {:induction false} UpToBound(l: Ledger, a: Id, n: nat)
    requires Forest(l.attempts) && Narrow(l) && Fanout(l) && a in l.attempts
    ensures |UpTo(l.attempts, a, n)| <= Geometric(l.attempts[a].limits.maxChildren, n)
    decreases n
  {
    var t := l.attempts;
    hide Narrow, Fanout, Forest;
    LevelBound(l, a, n);
    if n == 0 {
      LevelZero(t, a);
      SubsetSize(UpTo(t, a, 0), Level(t, a, 0));
    } else {
      UpToBound(l, a, n - 1);
      assert UpTo(t, a, n) == UpTo(t, a, n - 1) + Level(t, a, n);
    }
  }

  /** Fanout k and depth d bound the rows of a subtree, released ones included, by 1 + k + ... + k to the d. */
  lemma SubtreeSize(l: Ledger, a: Id)
    requires Inv(l) && a in l.attempts
    ensures |Subtree(l.attempts, a)|
         <= Geometric(l.attempts[a].limits.maxChildren, l.attempts[a].limits.maxDepth)
  {
    hide Caps, Receipts, Grants, Narrow, Fanout, ReleasedClosed, Shaped;
    var t, d := l.attempts, l.attempts[a].limits.maxDepth;
    UpToBound(l, a, d);
    assert Subtree(t, a) == UpTo(t, a, d);
  }

  // ---------------------------------------------------------------- cancellation

  lemma CancelledAdvance(h: History, c: Call)
    requires Sound(h) && h.ledger.cancelled
    ensures Advance(h, c).log == h.log
  {
    hide Caps, Receipts, Grants, Narrow, Fanout, Shallow, ReleasedClosed, Shaped, LogMatches, SourcesFirst, WalkDenial,
      ReserveAction, ReconcileAction, ReleaseAction, UncertainAction;
  }

  /** After cancellation nothing is admitted, reserved or dispatched any more, and the active attempts only shrink. */
  lemma {:induction false} CancellationIsFinal(h: History, calls: seq<Call>)
    requires Sound(h) && h.ledger.cancelled
    ensures
      var after := Run(h, calls);
      && after.ledger.cancelled
      && after.log == h.log
      && after.ledger.attempts.Keys == h.ledger.attempts.Keys
      && forall x :: x in after.ledger.attempts ==>
           && !after.ledger.attempts[x].state.Reserved?
           && (after.ledger.attempts[x].state.Active() ==> h.ledger.attempts[x].state.Active())
    decreases |calls|
  {
    hide Caps, Receipts, Grants, Narrow, Fanout, Shallow, Shaped, LogMatches, SourcesFirst, Step;
    RunProgress(h, calls);
    if calls != [] {
      AdvanceKeepsSound(h, calls[0]);
      StepProgress(h.ledger, calls[0].op, calls[0].now);
      CancelledAdvance(h, calls[0]);
      CancellationIsFinal(Advance(h, calls[0]), calls[1..]);
    }
  }

  lemma CancelStep(l: Ledger, x: Id, now: nat)
    requires Inv(l) && x in l.attempts && l.lastSeen <= now
    ensures
      var k := Step(l, Cancel, now).0;
      x in k.attempts && k.attempts[x] == CancelRow(l.attempts[x])
  {
    hide Caps, Receipts, Grants, Narrow, Fanout, Shallow, ReleasedClosed, Shaped;
  }

  lemma CancelledRowReports(before: Row, after: Row)
    requires RowShape(before) && RowShape(after) && RowEvolves(CancelRow(before), after)
    ensures before.state.Reserved? ==> ReportOf(after) == Report(before.request.id, true, true, false, true, None)
    ensures before.state.Dispatched? || before.state.Uncertain? ==>
      var report := ReportOf(after);
      && report.requested
      && (report.pending <==> !report.finalKnown)
      && (report.finalKnown <==> after.state.Settled?)
      && (report.stopConfirmed <==> report.outcome == Some(RunnerStopped) || report.outcome == Some(Cancelled))
    ensures before.state.UsageUnknown? ==>
      var report := ReportOf(after);
      && report.requested == before.cancelRequested
      && (report.finalKnown <==> after.state.Settled?)
      && report.pending == (report.requested && !report.finalKnown)
      && (report.stopConfirmed <==>
            report.requested && (report.outcome == Some(RunnerStopped) || report.outcome == Some(Cancelled)))
    ensures before.state.Released? || before.state.Settled? ==> ReportOf(after) == ReportOf(before)
  {
  }

  /**
   What a cancellation reports for good, whatever happens later: an undispatched attempt is confirmed stopped with
   nothing consumed; one in flight is pending until it settles and confirmed only by a receipt that says so; one
   that already ended with usage unknown is asked no more than it was before.
   */
  lemma CancelReports(h: History, now: nat, calls: seq<Call>, x: Id)
    requires Sound(h) && x in h.ledger.attempts && h.ledger.lastSeen <= now
    ensures
      var k := Run(h, [Call(Cancel, now)] + calls).ledger;
      && x in k.attempts
      && var state, report := h.ledger.attempts[x].state, ReportOf(k.attempts[x]);
         && (state.Reserved? ==> report == Report(x, true, true, false, true, None))
         && (state.Dispatched? || state.Uncertain? ==>
               && report.requested
               && (report.pending <==> !report.finalKnown)
               && (report.finalKnown <==> k.attempts[x].state.Settled?)
               && (report.stopConfirmed <==>
                     report.outcome == Some(RunnerStopped) || report.outcome == Some(Cancelled)))
         && (state.UsageUnknown? ==>
               && report.requested == h.ledger.attempts[x].cancelRequested
               && (report.finalKnown <==> k.attempts[x].state.Settled?)
               && report.pending == (report.requested && !report.finalKnown)
               && (report.stopConfirmed <==>
                     report.requested && (report.outcome == Some(RunnerStopped) || report.outcome == Some(Cancelled))))
         && (state.Released? || state.Settled? ==> report == ReportOf(h.ledger.attempts[x]))
  {
    hide Caps, Receipts, Grants, Narrow, Fanout, Shallow, ReleasedClosed, LogMatches, SourcesFirst, Step, ReportOf;
    var first := Call(Cancel, now);
    RunCons(h, first, calls);
    CancelStep(h.ledger, x, now);
    RunProgress(Advance(h, first), calls);
    var k := Run(Advance(h, first), calls).ledger;
    assert RowEvolves(Advance(h, first).ledger.attempts[x], k.attempts[x]);
    assert RowShape(h.ledger.attempts[x]) && RowShape(k.attempts[x]);
    assert Fits(h.ledger.attempts, x, h.ledger.attempts[x]);
    CancelledRowReports(h.ledger.attempts[x], k.attempts[x]);
  }

  /** Once final consumption is known, a report never changes; until then a request stays pending. */
  lemma FinalReportsAreStable(h: History, calls: seq<Call>, x: Id)
    requires Sound(h) && x in h.ledger.attempts
    ensures x in Run(h, calls).ledger.attempts
    ensures
      var before := ReportOf(h.ledger.attempts[x]);
      var after := ReportOf(Run(h, calls).ledger.attempts[x]);
      && (before.finalKnown ==> after == before)
      && (before.requested ==> after.requested && (after.pending <==> !after.finalKnown))
      && (before.outcome.Some? ==> after.outcome == before.outcome)
      && (before.stopConfirmed ==> after.stopConfirmed)
  {
    hide Caps, Receipts, Grants, Narrow, Fanout, Shallow, ReleasedClosed, LogMatches, SourcesFirst, Step;
    RunProgress(h, calls);
    assert RowEvolves(h.ledger.attempts[x], Run(h, calls).ledger.attempts[x]);
    assert RowShape(h.ledger.attempts[x]);
  }
}
