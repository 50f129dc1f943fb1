/** Runs at which two documented promises fail: an overrun that blocks nothing, and records that are not durable. */
module LedgerWitnesses {
  import opened Common
  import opened BudgetTypes
  import opened Sums
  import opened LedgerSpec
  import opened LedgerInvariant
  import opened LedgerRuns
  import opened LedgerTheorems
  import opened LedgerGates
  import opened LedgerReplay

  const A := Id("a")
  const B := Id("b")
  const LIMITS := Limits(10, 100, 100, 1000, 10, 100, 2, 2)
  const POLICY := Policy(LIMITS, Payload(""))
  const CLAIM := Claim(Id("p"), Payload(""))

  function Ask10(x: Id): Request {
    Request(x, None, 10, 10, 10)
  }

  /** Reports twice the reserved tokens and nothing else yet. */
  const PARTIAL := Receipt(Id("r"), A, Completed, Some(20), None, None)
  const FULL := Receipt(Id("s"), A, Completed, Some(20), Some(10), Some(10))

  // ---------------------------------------------------------------- single steps

  lemma AdmitRoot(l: Ledger, x: Id)
    requires Inv(l) && x !in l.attempts && l.lastSeen == l.started == 0 && !l.cancelled && l.policy == LIMITS
    requires Room(l.attempts, l.attempts.Keys, LIMITS, Ask10(x))
    ensures Step(l, Reserve(Ask10(x), None), 0) ==
      (l.(attempts := l.attempts[x := NewRow(l, Ask10(x), None)]), Attempted(Attempt(x, None, Reserved, 0)))
  {
    hide Inv, Room, OverdrawnBy;
    InvIsForest(l);
    ReserveGate(l, Ask10(x), None, 0);
    RoomAlone(l.attempts, l.attempts.Keys, LIMITS, Ask10(x));
    assert l.(lastSeen := 0) == l;
  }

  lemma DispatchRoot(l: Ledger, x: Id, claim: Option<Claim>)
    requires Inv(l) && x in l.attempts && l.attempts[x].state.Reserved? && l.attempts[x].limits == LIMITS
    requires l.lastSeen == l.started == 0 && !l.cancelled && (claim.Some? ==> Unspent(l, claim.value))
    ensures Step(l, MarkDispatched(x, None, claim), 0).1.Accepted()
    ensures Step(l, MarkDispatched(x, None, claim), 0).0 == Dispatch(l, x, None, claim)
  {
    hide Inv, DispatchDenial;
    InvIsForest(l);
    DispatchGate(l, x, None, claim, 0);
    assert l.(lastSeen := 0) == l;
    AcceptedDispatch(l, x, None, claim);
  }

  // ---------------------------------------------------------------- the ledgers along the runs

  function RowOf(x: Id, state: State, tokens: Option<nat>, rest: Option<nat>): Row {
    Row(Ask10(x), LIMITS, 0, state, tokens, rest, rest, if tokens.Some? then Some(Completed) else None, false)
  }

  function With(attempts: Table, receipts: map<Id, Receipt>, prerequisites: map<Id, Prerequisite>): Ledger {
    Fresh(POLICY, 0).(attempts := attempts, receipts := receipts, prerequisites := prerequisites)
  }

  const IN_FLIGHT := With(map[A := RowOf(A, Dispatched, None, None)], map[], map[])
  const OVERRUN := With(map[A := RowOf(A, UsageUnknown, Some(20), None)], map[PARTIAL.id := PARTIAL], map[])
  const REFINED :=
    With(map[A := RowOf(A, Settled, Some(20), Some(10))], map[PARTIAL.id := PARTIAL, FULL.id := FULL], map[])
  const GRANTED := With(
    map[A := RowOf(A, Settled, Some(20), Some(10))],
    map[FULL.id := FULL],
    map[CLAIM.receipt := Prerequisite(A, CLAIM.payload, None)])
  const SPENT := With(
    map[A := RowOf(A, Settled, Some(20), Some(10)), B := RowOf(B, Dispatched, None, None)],
    map[FULL.id := FULL],
    map[CLAIM.receipt := Prerequisite(A, CLAIM.payload, Some(B))])

  lemma EmptyHasRoom()
    ensures Room(map[], {}, LIMITS, Ask10(A))
  {
    forall m: Meter ensures Sum(Charged(m), map[], {}) + Ask(m, Ask10(A)) <= Cap(m, LIMITS) {
      match m {
        case Attempts =>
        case Tokens =>
        case Cost =>
        case Bytes =>
        case Active =>
      }
    }
  }

  /** A single row that is charged at most twenty of anything leaves room for another. */
  lemma OneRowLeavesRoom(row: Row)
    requires row.request == Ask10(A)
    requires row.tokens.Some? ==> row.tokens.value <= 20
    requires row.cost.Some? ==> row.cost.value <= 20
    requires row.bytes.Some? ==> row.bytes.value <= 20
    ensures Room(map[A := row], {A}, LIMITS, Ask10(B))
  {
    var t: Table := map[A := row];
    forall m: Meter ensures Sum(Charged(m), t, {A}) + Ask(m, Ask10(B)) <= Cap(m, LIMITS) {
      SumAdd(Charged(m), t, {}, A);
      assert {} + {A} == {A};
      match m {
        case Attempts =>
        case Tokens =>
        case Cost =>
        case Bytes =>
        case Active =>
      }
    }
  }

  const TO_FLIGHT := [Call(Reserve(Ask10(A), None), 0), Call(MarkDispatched(A, None, None), 0)]

  lemma ReachesFlight()
    ensures Run(Start(POLICY, 0), TO_FLIGHT) == History(IN_FLIGHT, [A])
  {
    hide Inv, LogMatches, SourcesFirst, Action;
    var h := Start(POLICY, 0);
    EmptyHasRoom();
    AdmitRoot(h.ledger, A);
    RunCons(h, TO_FLIGHT[0], TO_FLIGHT[1..]);
    var next := Advance(h, TO_FLIGHT[0]);
    DispatchRoot(next.ledger, A, None);
    RunCons(next, TO_FLIGHT[1], []);
    assert next.ledger.attempts[A := RowOf(A, Dispatched, None, None)] == IN_FLIGHT.attempts;
  }

  /** What reconciling the attempt in flight stores. */
  lemma FirstReceipt(r: Receipt, establishes: Option<Claim>)
    requires r.attempt == A && r.outcome.Completed? && r.tokens == Some(20) && r.cost == r.bytes
    requires r.bytes.Some? ==> r.bytes.value <= 10
    ensures Sound(History(IN_FLIGHT, [A]))
    ensures
      var state := if r.bytes.Some? then Settled else UsageUnknown;
      Advance(History(IN_FLIGHT, [A]), Call(Reconcile(r, establishes), 0)) == History(
        With(
          map[A := RowOf(A, state, Some(20), r.bytes)],
          map[r.id := r],
          if establishes.Some? then map[establishes.value.receipt := Prerequisite(A, establishes.value.payload, None)]
          else map[]),
        [A])
  {
    hide Inv, LogMatches, SourcesFirst;
    ReachesFlight();
    InvIsForest(IN_FLIGHT);
    assert !HasPrerequisite(IN_FLIGHT.prerequisites, A);
  }

  lemma ReachesByReceipt(r: Receipt, establishes: Option<Claim>, rest: seq<Call>)
    ensures Sound(Advance(History(IN_FLIGHT, [A]), Call(Reconcile(r, establishes), 0)))
    ensures Run(Start(POLICY, 0), TO_FLIGHT + ([Call(Reconcile(r, establishes), 0)] + rest))
         == Run(Advance(History(IN_FLIGHT, [A]), Call(Reconcile(r, establishes), 0)), rest)
  {
    hide Inv, LogMatches, SourcesFirst, Action;
    ReachesFlight();
    RunConcat(Start(POLICY, 0), TO_FLIGHT, [Call(Reconcile(r, establishes), 0)] + rest);
    RunCons(History(IN_FLIGHT, [A]), Call(Reconcile(r, establishes), 0), rest);
  }

  // ---------------------------------------------------------------- an overrun that blocks nothing

  /** A receipt has reported more than was reserved, and a new reservation is accepted. */
  lemma OverrunBlocksNothing()
    ensures
      var l := Run(Start(POLICY, 0), TO_FLIGHT + [Call(Reconcile(PARTIAL, None), 0)]).ledger;
      && ReportsOverrun(l, PARTIAL.id)
      && B !in l.attempts
      && Step(l, Reserve(Ask10(B), None), 0).1.Accepted()
  {
    hide Inv, LogMatches, SourcesFirst, Action, Step;
    FirstReceipt(PARTIAL, None);
    ReachesByReceipt(PARTIAL, None, []);
    assert [Call(Reconcile(PARTIAL, None), 0)] + [] == [Call(Reconcile(PARTIAL, None), 0)];
    var l := Run(Start(POLICY, 0), TO_FLIGHT + [Call(Reconcile(PARTIAL, None), 0)]).ledger;
    assert l == OVERRUN;
    OneRowLeavesRoom(RowOf(A, UsageUnknown, Some(20), None));
    assert l.attempts.Keys == {A};
    AdmitRoot(l, B);
  }

  // ---------------------------------------------------------------- records that are not durable

  /** What completing the partial receipt stores. */
  lemma SecondReceipt(ps: map<Id, Prerequisite>, log: seq<Id>)
    requires Sound(History(OVERRUN.(prerequisites := ps), log))
    ensures Step(OVERRUN.(prerequisites := ps), Reconcile(FULL, None), 0)
         == (REFINED.(prerequisites := ps), Attempted(Attempt(A, None, Settled, 0)))
  {
    hide Inv, LogMatches, SourcesFirst;
    InvIsForest(OVERRUN.(prerequisites := ps));
    assert FULL.id.text[0] != PARTIAL.id.text[0];
    assert OVERRUN.attempts[A := RowOf(A, Settled, Some(20), Some(10))] == REFINED.attempts;
  }

  /** A partial receipt that was completed later stays recorded and replays as a no-op, but is not durable. */
  lemma RefinedIsNotDurable()
    ensures
      var l := Run(Start(POLICY, 0),
        TO_FLIGHT + [Call(Reconcile(PARTIAL, None), 0), Call(Reconcile(FULL, None), 0)]).ledger;
      && l.prerequisites == map[]
      && Recorded(l, PARTIAL, None)
      && Step(l, Reconcile(PARTIAL, None), 0) == (l, Attempted(Attempt(A, None, Settled, 0)))
      && !IsDurable(l, PARTIAL, None)
  {
    hide Inv, LogMatches, SourcesFirst, Action, Step;
    var calls := [Call(Reconcile(PARTIAL, None), 0), Call(Reconcile(FULL, None), 0)];
    FirstReceipt(PARTIAL, None);
    ReachesByReceipt(PARTIAL, None, calls[1..]);
    assert [calls[0]] + calls[1..] == calls;
    SecondReceipt(map[], [A]);
    RunCons(History(OVERRUN, [A]), calls[1], []);
    assert [calls[1]] + [] == calls[1..];
    var l := Run(Start(POLICY, 0), TO_FLIGHT + calls).ledger;
    assert l == REFINED;
    RecordedIsNoOp(l, PARTIAL, None, 0);
    assert !Keeps(l.receipts[FULL.id].cost, PARTIAL.cost);
    DurableExactly(l, PARTIAL, None);
  }

  /** A receipt that says nothing of the prerequisite an earlier one established is stored and not durable. */
  lemma SilentIsNotDurable()
    ensures
      var l := Run(Start(POLICY, 0),
        TO_FLIGHT + [Call(Reconcile(PARTIAL, Some(CLAIM)), 0), Call(Reconcile(FULL, None), 0)]).ledger;
      Recorded(l, FULL, None) && Latest(l, FULL) && !IsDurable(l, FULL, None)
  {
    hide Inv, LogMatches, SourcesFirst, Action, Step;
    var calls := [Call(Reconcile(PARTIAL, Some(CLAIM)), 0), Call(Reconcile(FULL, None), 0)];
    var ps := map[CLAIM.receipt := Prerequisite(A, CLAIM.payload, None)];
    FirstReceipt(PARTIAL, Some(CLAIM));
    ReachesByReceipt(PARTIAL, Some(CLAIM), calls[1..]);
    assert [calls[0]] + calls[1..] == calls;
    SecondReceipt(ps, [A]);
    RunCons(History(OVERRUN.(prerequisites := ps), [A]), calls[1], []);
    assert [calls[1]] + [] == calls[1..];
    var l := Run(Start(POLICY, 0), TO_FLIGHT + calls).ledger;
    assert l == REFINED.(prerequisites := ps);
    assert ps[CLAIM.receipt].source == A;
    DurableExactly(l, FULL, None);
  }

  const TO_SPENT := [Call(Reserve(Ask10(B), None), 0), Call(MarkDispatched(B, None, Some(CLAIM)), 0)]

  lemma ReachesSpent()
    requires Sound(History(GRANTED, [A]))
    ensures Run(History(GRANTED, [A]), TO_SPENT).ledger == SPENT
  {
    hide Inv, LogMatches, SourcesFirst, Action, Step;
    var h := History(GRANTED, [A]);
    OneRowLeavesRoom(RowOf(A, Settled, Some(20), Some(10)));
    assert GRANTED.attempts.Keys == {A};
    AdmitRoot(h.ledger, B);
    RunCons(h, TO_SPENT[0], TO_SPENT[1..]);
    var next := Advance(h, TO_SPENT[0]);
    DispatchRoot(next.ledger, B, Some(CLAIM));
    RunCons(next, TO_SPENT[1], []);
    assert [TO_SPENT[1]] + [] == TO_SPENT[1..];
    assert [TO_SPENT[0]] + TO_SPENT[1..] == TO_SPENT;
    assert next.ledger.attempts[B := RowOf(B, Dispatched, None, None)] == SPENT.attempts;
  }

  /** A reconciliation that was durable stops being so, though it stays recorded, once its prerequisite is consumed. */
  lemma ConsumedIsNotDurable()
    ensures
      var h := Run(Start(POLICY, 0), TO_FLIGHT + [Call(Reconcile(FULL, Some(CLAIM)), 0)]);
      var l := Run(h, TO_SPENT).ledger;
      && IsDurable(h.ledger, FULL, Some(CLAIM))
      && Recorded(l, FULL, Some(CLAIM)) && Latest(l, FULL)
      && !IsDurable(l, FULL, Some(CLAIM))
  {
    hide Inv, LogMatches, SourcesFirst, Action, Step;
    FirstReceipt(FULL, Some(CLAIM));
    ReachesByReceipt(FULL, Some(CLAIM), []);
    assert [Call(Reconcile(FULL, Some(CLAIM)), 0)] + [] == [Call(Reconcile(FULL, Some(CLAIM)), 0)];
    var h := Run(Start(POLICY, 0), TO_FLIGHT + [Call(Reconcile(FULL, Some(CLAIM)), 0)]);
    assert h == History(GRANTED, [A]);
    ReachesSpent();
    DurableExactly(h.ledger, FULL, Some(CLAIM));
    DurableExactly(SPENT, FULL, Some(CLAIM));
  }
}
