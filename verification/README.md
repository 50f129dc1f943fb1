# Verified models of the assessment core

This project models the parts of the security-assessment toolkit whose correctness is hard to see by reading
them, and proves what they promise over every input and every run:

* the **assessment budget ledger**: a durable store of a forest of attempts with nested limits, one-use approvals
  and prerequisites, partial usage receipts, cancellation and restart;
* the **live-dispatch protocol** that any number of concurrent callers run on top of the ledger;
* the **EVTX framing validator** and the fixture builder that must satisfy it;
* the **bounded Git-history scan** and its completeness flag;
* the **stack-based workflow parser**;
* the **notice registry** and its successor chains.

`dafny verify dfyconfig.toml` checks everything.

## How the ledger is modelled

`LedgerSpec` gives every public operation as one atomic step on a value, `Step(ledger, op, now)`, with the source's
checks in the source's order. `AssessmentLedger` is the store itself: a class whose methods update the tables in
place inside a transaction, take a savepoint, roll back when they refuse, and walk parents with loops; each method
is proved to compute exactly the step. `LedgerInvariant` states what holds in every reachable state and proves
that every step keeps it. `LedgerRuns` defines a run as any sequence of calls, restarts included, with any clock
readings, and logs the dispatches it accepted. The theorems follow: `LedgerEffects` (what each accepted operation
changes, written out), `LedgerAccounts` (what a snapshot counts and how operations move it), `LedgerTheorems` (caps,
one-use, sizes, cancellation), `LedgerWalks` (ancestor walks and deadlines), `LedgerGates` (when each
operation is accepted, exactly), `LedgerAnswers` (which check refuses), `LedgerReplay` (refused and repeated calls) and
`LedgerRestart` (restart transparency). `LedgerWitnesses` holds the runs at which two documented promises fail.

The five counted quantities (attempts, tokens, cost, output bytes, active attempts) are one type, `Meter`, so one
statement about sums covers all five. A charge may exceed its reservation only by a reported overrun, so the caps
are stated as `charged <= cap + overruns`, with overruns provably zero for attempts, bytes and concurrency.

`LiveDispatch` is a state machine: each call has a program counter, and an event lets one call make its next
transaction, start the gateway, or be interrupted, or lets any other user of the ledger do anything. A transaction
may return, raise with nothing committed, or raise although it committed.

## Where the documents and the code differ

* `docs/ASSESSMENT_BUDGETS.md:103-104` says that usage above the estimate blocks new admission. In the code an
  overrun matters only through the charged totals. `LedgerWitnesses.OverrunBlocksNothing` is a run in which a stored
  receipt reports twice the reserved tokens and the next reservation is accepted. The exact condition is in snapshot
  numbers: `LedgerGates.AdmissionInSnapshot` says that something can be admitted exactly while the engagement runs, is
  not over budget, and has an attempt and an active place left; `LedgerGates.AdmissionIsOpen` says the same under any
  given parent, and `LedgerGates.ReserveGate` for any given request. An overdrawn ledger blocks every new reservation
  (`LedgerGates.OverBudgetBlocksAdmission`) and an overdrawn subtree every one below its root
  (`LedgerGates.OverdrawnSubtreeBlocksBelow`).
* In a running engagement the ancestor walks for released attempts never find more than the direct parent (or the
  row itself) shows (`LedgerWalks.ReleasedWalkIsParentCheck`, `LedgerWalks.DispatchWalkIsOwnCheck`).
* `reconciliation_is_durable` asks for more than that the reconciliation is stored. `LedgerReplay.DurableExactly`
  gives the exact condition in every state: no stored receipt of the attempt knows more than this one, and the
  prerequisite it established is still unspent, or, if it named none, its attempt has none. Each part can fail in a
  run while the reconciliation stays recorded and replays as a no-op: a partial receipt that was completed later
  (`LedgerWitnesses.RefinedIsNotDurable`), a receipt silent about an earlier prerequisite
  (`LedgerWitnesses.SilentIsNotDurable`), and a prerequisite consumed since (`LedgerWitnesses.ConsumedIsNotDurable`).

## Model

| member | source | states |
|---|---|---|
| AttemptForest.InsertedSubtree | cops/assessment_budget.py:560-582 | A new row joins exactly the subtrees of its ancestors and is alone in its own |
| AttemptForest.DescendsFacts | cops/assessment_budget.py:588-595 | A parent walk only moves up, to stored attempts, and meets each depth once, so it terminates |
| LedgerInvariant.ChargeRisesWithOverrun | cops/assessment_budget.py:464-484 | Along any row evolution each of the five charges rises by at most what the overrun rises |
| LedgerInvariant.SumsRiseWithOverruns | cops/assessment_budget.py:464-484 | The same for the sums over any set of attempts |
| LedgerInvariant.RowsEvolve | cops/assessment_budget.py:720-848 | No operation but a reservation adds rows; the others only move rows along their evolution, keeping every known field |
| LedgerInvariant.AdmissionKeepsCaps | cops/assessment_budget.py:575-585 | The admission checks on the ledger, on every ancestor and on the row itself re-establish the caps of every subtree |
| LedgerInvariant.AdmissionKeepsShallow | cops/assessment_budget.py:550-555 | Every attempt stays within the depth limits of the policy and of every ancestor |
| LedgerInvariant.AdmissionKeepsFanout | cops/assessment_budget.py:544-549 | No attempt gets more children than its limit, released ones counted |
| LedgerInvariant.AdmissionKeepsNarrow | cops/assessment_budget.py:541-543 | Stored limits only narrow from parent to child |
| LedgerInvariant.DispatchKeepsGrants | cops/assessment_budget.py:688-720 | A dispatch keeps approvals and prerequisites one-use and their users dispatched |
| LedgerInvariant.EstablishKeepsGrants | cops/assessment_budget.py:810-832 | A reconciliation establishes at most one prerequisite per attempt, and only for a completed one |
| LedgerInvariant.ReservedHasNoGrants | cops/assessment_budget.py:704-719 | A reserved attempt has used nothing, so the unique constraints on approvals and intents cannot fire |
| LedgerInvariant.ReconcileKeepsReceipts | cops/assessment_budget.py:791-852 | Receipts of an attempt keep agreeing with its row, and at most one of them is complete |
| LedgerInvariant.ReleaseKeepsReleasedClosed | cops/assessment_budget.py:732-749 | A release leaves no live child under a released attempt |
| LedgerInvariant.ReleasedBelow | cops/assessment_budget.py:732-749 | Until cancellation everything below a released attempt is released |
| LedgerInvariant.StepKeepsInv | cops/assessment_budget.py:433-983 | Every operation, accepted or refused, at any clock reading, keeps the whole invariant |
| LedgerRuns.AdvanceKeepsSound | cops/assessment_budget.py:660-721 | The dispatch log never repeats, matches the dispatched states, and orders every prerequisite source before its consumer |
| LedgerRuns.Run | cops/assessment_budget.py:244-284 | Every run from a sound history, restarts included, ends in a sound history |
| LedgerRuns.RunProgress | cops/assessment_budget.py:771-853 | Over any run knowledge only grows, settled and released rows are frozen, the clock never goes back, and after cancellation activity only ends |
| LedgerRuns.OnlyDispatchDispatches | cops/assessment_budget.py:720-730 | Nothing but an accepted dispatch makes an attempt dispatched or consumes a prerequisite |
| LedgerGates.DispatchGate | cops/assessment_budget.py:660-719 | A dispatch is accepted exactly for a reserved attempt within its own time, with an unused approval inside its window and an unspent matching prerequisite, before cancellation |
| LedgerGates.DispatchRestsOnCompleted | cops/assessment_budget.py:688-703 | The prerequisite an accepted dispatch consumes comes from another attempt, dispatched before and completed |
| LedgerGates.ReserveGate | cops/assessment_budget.py:518-585 | A new reservation is accepted exactly when its direct parent is live, in time and has room for a child, its limits and depth fit, and the charged totals of the ledger, of every ancestor's subtree and of the row alone leave room for what it asks, before cancellation |
| LedgerGates.OverdrawnInTotals | cops/assessment_budget.py:560-585 | The three checks made after the row is stored pass exactly when the totals stored before it leave room on all five meters |
| LedgerGates.LeastRequestGate | cops/assessment_budget.py:518-585 | The request for nothing under a given parent is accepted exactly when that parent is open: attempts and active below their caps, tokens, cost and bytes at most at theirs, for the ledger and every ancestor |
| LedgerGates.AdmissionIsOpen | cops/assessment_budget.py:518-585 | Some new reservation under a given parent can be accepted exactly when that parent is open |
| LedgerGates.RootIsMostOpen | cops/assessment_budget.py:538-559 | If anything can be reserved under some attempt, something can be reserved at the root |
| LedgerGates.AdmissionInSnapshot | cops/assessment_budget.py:486-494 | Something new can be admitted exactly while the engagement is neither cancelled nor out of time, its snapshot is not over budget, and an attempt and an active place are left |
| LedgerGates.OverBudgetBlocksAdmission | cops/assessment_budget.py:575-577 | While the ledger is over budget every new reservation is denied |
| LedgerGates.OverdrawnSubtreeBlocksBelow | cops/assessment_budget.py:579-582 | While a subtree exceeds its root's limits every new reservation anywhere below that root is denied |
| LedgerGates.ReleaseGate | cops/assessment_budget.py:735-747 | A release is accepted exactly for an attempt that was never dispatched and whose descendants are all released |
| LedgerGates.ReconcileGate | cops/assessment_budget.py:776-832 | A new receipt is accepted exactly when its attempt is in flight, it repeats all that is known, and it retains no more than was reserved |
| LedgerAnswers.DispatchAnswers | cops/assessment_budget.py:660-719 | Which of the checks answers a dispatch, in order, with the walk to the root reduced to the attempt's own limit |
| LedgerAnswers.ReserveAnswers | cops/assessment_budget.py:518-585 | Which of the checks answers a new reservation, in order, in terms of the tables before it |
| LedgerAnswers.ReleaseAnswers | cops/assessment_budget.py:735-747 | Which of the checks answers a release |
| LedgerAnswers.ReconcileAnswers | cops/assessment_budget.py:771-853 | Which of the checks answers a reconciliation, new or repeated, in order |
| LedgerAnswers.OtherAnswers | cops/assessment_budget.py:597-620 | Lookups, reports and marking uncertain refuse for one reason each; cancelling, the snapshot and reopening are never refused |
| LedgerTheorems.CapsInEveryRun | cops/assessment_budget.py:464-494 | In every reachable state the ledger and every subtree stay within each cap plus reported overruns; attempts, bytes and concurrency stay within the caps outright |
| LedgerTheorems.OverBudgetInEveryRun | cops/assessment_budget.py:959-962 | A snapshot is over budget only if a stored receipt reported more tokens or cost than were reserved |
| LedgerTheorems.DispatchedAtMostOnce | cops/assessment_budget.py:668-721 | Over any run two accepted dispatches never share an attempt, an approval receipt or a prerequisite |
| LedgerTheorems.FeedsInOrder | cops/assessment_budget.py:762-832 | Source-to-consumer is a partial bijection from completed attempts that follows the dispatch order |
| LedgerTheorems.ChainsAreAcyclic | cops/assessment_budget.py:688-703 | The attempts of any prerequisite chain are all different and in dispatch order |
| LedgerTheorems.SubtreeSize | cops/assessment_budget.py:544-555 | A subtree with fanout k and depth d holds at most 1 + k + ... + k^d rows, released ones included |
| LedgerTheorems.CancellationIsFinal | cops/assessment_budget.py:931-938 | After cancellation nothing is admitted, reserved or dispatched in any run, and the active set only shrinks |
| LedgerTheorems.CancelReports | cops/assessment_budget.py:931-957 | After a cancellation and any run an attempt that was undispatched is reported stopped with nothing consumed; one in flight is pending exactly until it settles and confirmed exactly by a receipt that says so; one of unknown usage is asked no more than before; a final one reports as before |
| LedgerTheorems.FinalReportsAreStable | cops/assessment_budget.py:940-957 | A report with final consumption never changes; a requested one is pending exactly until then |
| LedgerEffects.NewStore | cops/assessment_budget.py:263-273 | A new store has its policy and all its time, and holds nothing |
| LedgerEffects.InvalidExactly | cops/assessment_budget.py:622-659 | Arguments are refused before the store is touched exactly for an empty approval window, an intent over 65536 characters, or a prerequisite claimed by an attempt that did not complete |
| LedgerEffects.RepliesShowRows | cops/assessment_budget.py:460-462 | Whatever operation answers with an attempt, the answer is the row as stored afterwards, of the attempt that was asked about |
| LedgerEffects.LookUpExactly | cops/assessment_budget.py:597-603 | A lookup succeeds exactly for stored attempts and changes only the clock |
| LedgerEffects.ReserveStores | cops/assessment_budget.py:538-573 | An accepted new reservation adds one row, with the limits and depth it inherits and nothing consumed, and changes no other row or table |
| LedgerEffects.DispatchSpends | cops/assessment_budget.py:682-721 | An accepted dispatch changes one row from reserved to dispatched, spends exactly the prerequisite and the approval it was given, on that attempt, and stores the approval's intent |
| LedgerEffects.IntentIsKept | cops/assessment_budget.py:605-620 | After an accepted dispatch with an approval and any run, the intent lookup answers that approval's intent |
| LedgerEffects.NoIntentWithoutDispatch | cops/assessment_budget.py:605-620 | An intent is answered only for an attempt that was dispatched |
| LedgerEffects.UncertainExactly | cops/assessment_budget.py:723-730 | Exactly attempts in flight can be marked uncertain, and nothing else changes |
| LedgerEffects.ReleaseFrees | cops/assessment_budget.py:732-749 | An accepted release makes one undispatched row released, and changes nothing else |
| LedgerEffects.ReconcileStores | cops/assessment_budget.py:833-853 | An accepted new receipt is stored, copied field by field into its attempt's row, which settles exactly when it is complete, and establishes its prerequisite unspent |
| LedgerEffects.CancelStops | cops/assessment_budget.py:931-938 | A cancellation asks every active row to stop, releases the reserved ones and leaves the others as they were |
| LedgerEffects.NothingRequestedBeforeCancel | cops/assessment_budget.py:940-957 | In a run that was not cancelled no report says that a stop was requested, confirmed or is pending |
| LedgerEffects.OnlyCancelCancels | cops/assessment_budget.py:931-938 | The engagement becomes cancelled by a cancellation and by nothing else |
| LedgerEffects.ReportExactly | cops/assessment_budget.py:940-957 | Each field of a report, in terms of the stored row |
| LedgerEffects.WholeRemaining | cops/assessment_budget.py:964-983 | The whole engagement has the policy's time minus elapsed left, clipped at zero, no stored attempt has more, and an unknown attempt is refused |
| LedgerAccounts.SnapshotIsBill | cops/assessment_budget.py:464-494 | In every state a snapshot counts the rows not released and those in flight, and its tokens, cost and bytes are the sums of what requests and receipts say each live attempt costs; it is over budget exactly when one of the five exceeds its cap |
| LedgerAccounts.RowsWithinCapsInEveryRun | cops/assessment_budget.py:575-585 | In every run the number of rows not released, and of rows in flight, is within the caps of the policy and, in every subtree, of its root |
| LedgerAccounts.ReserveMoves | cops/assessment_budget.py:464-484 | An accepted new reservation moves the snapshot by one attempt, one active place and exactly what it asks |
| LedgerAccounts.ReleaseMoves | cops/assessment_budget.py:732-749 | A release gives back exactly what the reservation took; releasing again gives back nothing |
| LedgerAccounts.DispatchMovesNothing | cops/assessment_budget.py:660-730 | Dispatching, and marking uncertain, leave all five numbers of the snapshot as they were |
| LedgerAccounts.ReceiptMoves | cops/assessment_budget.py:464-484 | A complete receipt replaces what its attempt counted for by exactly what it reports; a partial one by the larger of report and reservation, field by field |
| LedgerAccounts.CancelMoves | cops/assessment_budget.py:931-938 | A cancellation gives back exactly what the reserved rows had asked for |
| LedgerWalks.RemainingIsOwn | cops/assessment_budget.py:964-983 | The minimum over the ancestor chain is the attempt's own allowance minus elapsed, clipped at zero |
| LedgerWalks.RemainingShrinksDownwards | cops/assessment_budget.py:964-983 | A descendant never has more time left than an ancestor |
| LedgerWalks.RemainingNeverGrows | cops/assessment_budget.py:964-983 | Over any run the time left for an attempt never increases |
| LedgerWalks.DispatchWalkIsOwnCheck | cops/assessment_budget.py:664-681 | A reserved attempt is refused for time exactly when its own limit has passed, and never for an ancestor |
| LedgerWalks.ReleasedWalkIsParentCheck | cops/assessment_budget.py:524-537 | Until cancellation some ancestor is released exactly when the parent is |
| LedgerWalks.DeadlineWalkIsParentCheck | cops/assessment_budget.py:556-559 | Some ancestor's deadline has passed exactly when the parent's has |
| LedgerReplay.RefusalChangesOnlyTheClock | cops/assessment_budget.py:433-458 | A refused call changes at most the stored clock; constraint faults never occur; a clock fault occurs exactly when time moved back |
| LedgerReplay.ReserveReplay | cops/assessment_budget.py:502-517 | Repeating an accepted reservation after any run succeeds and changes only the clock |
| LedgerReplay.ReserveReuseIsDenied | cops/assessment_budget.py:502-517 | After an accepted reservation and any run, its id is refused exactly to another request or to limits that differ in effect from those it was admitted with |
| LedgerReplay.ReconcileReplay | cops/assessment_budget.py:773-790 | Repeating an accepted reconciliation after any run succeeds and changes only the clock |
| LedgerReplay.ReceiptReuseIsDenied | cops/assessment_budget.py:773-775 | After an accepted reconciliation and any run, its receipt id is refused as conflicting exactly to another receipt |
| LedgerReplay.DurableIsNoOp | cops/assessment_budget.py:855-929 | If a reconciliation is reported durable, making it again changes only the clock |
| LedgerReplay.DurableExactly | cops/assessment_budget.py:890-929 | In every state a recorded reconciliation is durable exactly when no receipt of its attempt knows more and its prerequisite is unspent, or absent if it named none |
| LedgerReplay.DurableAfterAnyRun | cops/assessment_budget.py:890-929 | The same after an accepted reconciliation and any run |
| LedgerReplay.FreshReconcileIsDurable | cops/assessment_budget.py:833-853 | Right after a first reconciliation no receipt knows more, so durability depends only on the prerequisites stored before it |
| LedgerReplay.ReceiptsOfOneAttempt | cops/assessment_budget.py:791-804 | Two receipts of one attempt agree on the outcome and on every field both know |
| LedgerReplay.SettledHasOneCompleteReceipt | cops/assessment_budget.py:833-852 | A settled attempt has exactly one complete receipt, equal to its row |
| LedgerRestart.ReopenRecovers | cops/assessment_budget.py:274-282 | A reopen is accepted exactly for the whole same policy and a clock that has not gone back; it makes every dispatched row uncertain and changes no other row or table |
| LedgerRestart.BlurAction | cops/assessment_budget.py:278-281 | Once dispatched is relabelled uncertain every operation replies and acts as on the original, up to that label |
| LedgerRestart.RestartIsTransparent | cops/assessment_budget.py:263-284 | After a reopen anywhere in a run nothing is dispatched any more; at a time between its neighbours it changes no later reply, dispatch or table entry but the dispatched label |
| LedgerWitnesses.OverrunBlocksNothing | docs/ASSESSMENT_BUDGETS.md:103-104 | A run after which a receipt reports an overrun and a new reservation is accepted |
| LedgerWitnesses.RefinedIsNotDurable | cops/assessment_budget.py:901-909 | A run after which a partial receipt, completed later, is recorded and replays as a no-op but is not durable, with no prerequisite stored |
| LedgerWitnesses.SilentIsNotDurable | cops/assessment_budget.py:925-929 | A run after which the latest receipt is recorded but not durable, because an earlier one established a prerequisite |
| LedgerWitnesses.ConsumedIsNotDurable | cops/assessment_budget.py:911-923 | A reconciliation that was durable is no longer so after another attempt consumed its prerequisite |
| LedgerLoops.DescendsFrom | cops/assessment_budget.py:588-595 | The loop decides descent |
| LedgerLoops.ChargedSnapshot | cops/assessment_budget.py:464-484 | One pass over the rows computes the five sums |
| LedgerLoops.RowsWithin | cops/assessment_budget.py:486-494 | The comparison decides whether every sum is within its cap |
| LedgerLoops.Ancestors | cops/assessment_budget.py:528-537 | The loop lists exactly the ancestors, unless one is released |
| LedgerLoops.AnyOverdrawn | cops/assessment_budget.py:579-582 | The loop decides whether some ancestor's subtree exceeds that ancestor's limits |
| LedgerLoops.DispatchWalk | cops/assessment_budget.py:670-681 | The loop finds the first objection on the way to the root |
| LedgerLoops.AnyLiveDescendant | cops/assessment_budget.py:739-747 | The loop decides whether a live attempt descends from the given one |
| LedgerLoops.LeastRemaining | cops/assessment_budget.py:975-982 | The loop computes the minimum along the chain |
| AssessmentLedger.AssessmentBudgetLedger.constructor | cops/assessment_budget.py:263-273 | A new store is the fresh ledger |
| AssessmentLedger.AssessmentBudgetLedger.Reserve | cops/assessment_budget.py:496-586 | In-place insertion with rollback is exactly the reserve step, row removed again when refused |
| AssessmentLedger.AssessmentBudgetLedger.GetAttempt | cops/assessment_budget.py:597-603 | Exactly the lookup step |
| AssessmentLedger.AssessmentBudgetLedger.GetDispatchIntent | cops/assessment_budget.py:605-620 | Exactly the intent lookup step |
| AssessmentLedger.AssessmentBudgetLedger.MarkDispatched | cops/assessment_budget.py:622-721 | In-place consumption with rollback is exactly the dispatch step |
| AssessmentLedger.AssessmentBudgetLedger.MarkUncertain | cops/assessment_budget.py:723-730 | Exactly the step that marks a dispatch uncertain |
| AssessmentLedger.AssessmentBudgetLedger.ReleaseUndispatched | cops/assessment_budget.py:732-749 | Exactly the release step |
| AssessmentLedger.AssessmentBudgetLedger.Reconcile | cops/assessment_budget.py:751-853 | Exactly the reconcile step |
| AssessmentLedger.AssessmentBudgetLedger.ReconciliationIsDurable | cops/assessment_budget.py:855-929 | Decides durability of well-formed arguments and changes nothing |
| AssessmentLedger.AssessmentBudgetLedger.CancelEngagement | cops/assessment_budget.py:931-938 | Two table updates in a row are exactly the cancel step |
| AssessmentLedger.AssessmentBudgetLedger.RequestReport | cops/assessment_budget.py:940-957 | Exactly the report step |
| AssessmentLedger.AssessmentBudgetLedger.TakeSnapshot | cops/assessment_budget.py:959-962 | Exactly the snapshot step |
| AssessmentLedger.AssessmentBudgetLedger.RemainingElapsedMs | cops/assessment_budget.py:964-983 | Exactly the remaining-time step |
| AssessmentLedger.AssessmentBudgetLedger.Reopen | cops/assessment_budget.py:274-282 | Exactly the restart step: the whole policy is compared, then the clock is checked and dispatches become uncertain |
| AssessmentLedger.DispatchFixture | cops/assessment_budget.py:997-1012 | The callback is called at most once per attempt id, only after a durable dispatch; a failure afterwards leaves the attempt uncertain |
| LiveDispatch.CommitKeeps | cops/provider_live.py:408-434 | Whatever the store does with a transaction, each dispatched attempt has one dispatcher, and one that saw success is it |
| LiveDispatch.NextKeepsSafe | cops/provider_live.py:372-517 | Every event of every call and of every other ledger user keeps the protocol safe: one start per dispatch, in time, refused calls without a dispatch, evidence that is true |
| LiveDispatch.GatewayAtMostOnce | cops/provider_live.py:408-517 | Over every interleaving the gateway starts at most once per attempt, only after the call's own dispatch returned normally, and that attempt stays charged; a call that ends refused never dispatched its attempt itself |
| LiveDispatch.GatewayInTime | cops/provider_live.py:88-103 | Over every interleaving each start rests on a transaction in which the call itself read the clock, and its wait is positive and ends within the call's own allowance and the attempt's deadline |
| LiveDispatch.IntentIsOwn | cops/provider_live.py:380-434 | Over every interleaving a call marks, observes or starts the gateway only for a stored reservation of its own request, and starts, observes or reports something only under its own stored intent |
| LiveDispatch.StoredAttemptIsLeftAlone | cops/provider_live.py:373-379 | Over every interleaving a call whose attempt is stored before it looks it up never dispatches it and never starts the gateway |
| LiveDispatch.InterruptedCallMarks | cops/provider_live.py:507-517 | A call interrupted anywhere from its dispatch to the end of the gateway still marks its attempt uncertain before it ends |
| LiveDispatch.ObservationSurvivesFailures | cops/provider_live.py:56-71 | Over a store that raises at both marks, the call ends with its attempt uncertain and says so if either was committed, and with the attempt dispatched, said too, only if neither was |
| LiveDispatch.RecoveryEnds | cops/provider_live.py:414-434 | An undisturbed call whose dispatch mark raised ends without starting the gateway: with its attempt uncertain, and saying so, exactly when its own intent was stored |
| LiveDispatch.EvidenceIsTrue | cops/provider_live.py:56-71 | Over every interleaving a call's evidence never says that its attempt is further along than the ledger holds |
| LiveDispatch.CallsEnd | cops/provider_live.py:372-517 | Every event that moves a call brings it closer to its end, and every transaction moves it, so a call takes part in at most fourteen events that matter |
| LiveDispatch.ReachesDispatch | cops/provider_live.py:373-413 | An undisturbed call for a fresh attempt that can be reserved and dispatched stores both, with the intent of its approval, and goes on to the deadline |
| LiveDispatch.DispatchedCallEnds | cops/provider_live.py:454-506 | A dispatched undisturbed call starts the gateway once if time is left and not at all otherwise, and ends with its attempt uncertain and evidence that says so |
| LiveDispatch.DeniedCallGivesBack | cops/provider_live.py:414-427 | An undisturbed call whose dispatch is denied ends refused, with its reservation released and nothing else changed |
| Bytes.PackRoundTrip | scripts/build_evtx_fixtures.py:84-89 | Packing and reading a little-endian field gives the value back |
| Evtx.ScanIsTiling | cops/adapters/evtx.py:77-91 | Reading records one after another finds exactly the gap-free, overlap-free tiling, if there is one |
| Evtx.OneLayoutPerChunk | cops/adapters/evtx.py:67-96 | A chunk has at most one layout |
| Evtx.ScanChunk | cops/adapters/evtx.py:76-96 | Returns the chunk's records, or none is its layout within the record limit and in id order |
| Evtx.ValidateEvtx | cops/adapters/evtx.py:52-98 | Accepts exactly the byte strings with the declared layout and returns its frames in order |
| EvtxBuild.RecordReadsBack | scripts/build_evtx_fixtures.py:83-89 | A built record reads back as a whole record with its size and id |
| EvtxBuild.WriteRecords | scripts/build_evtx_fixtures.py:93-100 | Every record is in the buffer at its consecutive position |
| EvtxBuild.Build | scripts/build_evtx_fixtures.py:92-111 | Fails exactly when the records do not fit a chunk; otherwise both headers and all records are as declared |
| EvtxBuild.BuiltFileHasLayout | scripts/build_evtx_fixtures.py:92-111 | A built file has a layout exactly when it has events within the limit, and only that one |
| EvtxBuild.BuildThenValidate | scripts/build_evtx_fixtures.py:92-111 | For any bodies and any checksum, validation accepts exactly the non-empty fixtures that fit, with ids 1..n where they were placed |
| EvtxBytes.ReadRoundTrip | cops/adapters/evtx.py:56-62 | Packing what a little-endian field reads gives its bytes back |
| EvtxBytes.HeaderInBytes | cops/adapters/evtx.py:54-65 | A file header is accepted exactly when its bytes are the signature, version 3.1 or 3.2, clean flags, sizes, chunk numbers and checksum, byte by byte |
| EvtxBytes.ChunkInBytes | cops/adapters/evtx.py:68-96 | A chunk is accepted exactly when its header bytes are the signature, the ids and number of its records, where the last one starts and ends, and both checksums |
| EvtxBytes.LayoutInBytes | cops/adapters/evtx.py:65-97 | A file is laid out exactly when its header and chunks are, its records are within the limit with rising ids, and the header's next id follows the last |
| EvtxBytes.RecordInBytes | cops/adapters/evtx.py:79-86 | A record of a size is accepted exactly when its bytes are the magic and that size at both ends |
| EvtxBytes.RecordSizes | cops/adapters/evtx.py:79-86 | An accepted record fits, is at least 32 bytes and a multiple of eight, and its id is what its bytes say |
| EvtxBytes.RecordSizeIsLeast | scripts/build_evtx_fixtures.py:82-89 | A built record is its body and framing rounded up to the next multiple of eight |
| GitHistory.ScanMatches | cops/assessments/git_history.py:476-503 | Records each new match once, or stops at the match limit and says so |
| GitHistory.ScanEntry | cops/assessments/git_history.py:426-505 | Every visit is accounted for: a scan stops only at a bound that is reached, and coverage is cut for exactly the reasons that some visit gives |
| GitHistory.ScanBlob | cops/assessments/git_history.py:453-505 | A blob is asked for exactly as much as there is room for; unless git failed or the match limit was reached, every match in its output is recorded |
| GitHistory.ScanTree | cops/assessments/git_history.py:424-505 | The entries of a tree are visited in order, all of them unless the scan stops |
| GitHistory.ScanHistory | cops/assessments/git_history.py:389-548 | A complete scan has recorded exactly the matches of the history and no-match means none exists; every counter and every reason for incomplete coverage is accounted for by the visits, in both directions; a clean history within the bounds is scanned to the end and reported complete |
| GitHistory.MatchIsFound | cops/assessments/git_history.py:476-513 | When nothing was cut, every match of the examined history is recorded |
| GitHistory.FoundIsMatch | cops/assessments/git_history.py:476-513 | Unless an output overflowed, every recorded occurrence is a match of the examined history |
| GitHistory.CleanIsComplete | cops/assessments/git_history.py:389-548 | When all is listed and output whole, every entry is a plain blob and no bound is reached, there is no reason to cut coverage |
| Workflow.PopMappings | cops/assessments/supply_inputs.py:155-157 | Popping the top while it is too deep removes exactly the entries that no longer enclose the line |
| Workflow.BlockMoves | cops/assessments/supply_inputs.py:143-146 | Comparing with one remembered column decides which lines belong to block scalars: those right of some earlier marker's key since that marker |
| Workflow.WorkflowEntries | cops/assessments/supply_inputs.py:133-179 | Exactly the matched lines that no block scalar hides become entries, in order, each saying what its line says, with the latest containing empty-valued entry as parent and the latest holding item, all by columns; incomplete exactly when some other line is not understood |
| Workflow.CheckoutInputs | cops/assessments/supply_inputs.py:182-205 | A step is flagged exactly when a ref or a repository among its own inputs has an untrusted value, and reported as not understood exactly when it is not in a steps list or its action, inputs or input keys are not unique |
| Workflow.InputsAreInsideTheStep | cops/assessments/supply_inputs.py:182-205 | Every field a checkout step is judged by lies inside that step's own sequence item |
| Notices.WalkSuccessors | cops/service_notices.py:355-362 | The loop terminates and succeeds exactly when the successor chain comes to an end |
| Notices.ValidateRegistry | cops/service_notices.py:229-363 | Accepts exactly the registries with sound lifecycles, distinct ids, compatible successors and ending chains |
| Notices.LifecycleExactly | cops/service_notices.py:229-249 | A lifecycle is sound exactly when a successor marks superseded notices and a reason withdrawn ones, no others, and none succeeds itself |
| Notices.SuccessorsShare | cops/service_notices.py:340-353 | In an accepted registry a superseded notice and its successor share a system and a product, and the successor is not withdrawn |
| Notices.SupersededReachesActive | cops/service_notices.py:340-363 | In an accepted registry every superseded notice leads to an active one in finitely many steps |
| Notices.SuccessorsAreAcyclic | cops/service_notices.py:340-363 | In an accepted registry no successor path returns to its start |

## Left out

- Integer bounds: values above 2^63 - 1, and non-positive limits, are rejected by constructors that are not modelled; every result holds for all natural numbers.
- Identifiers, timestamps and canonical JSON are values compared by equality; their formats are not modelled, so an unused identifier always exists.
- The store: one atomic transaction with a savepoint; file ownership, pragmas and directory checks are not modelled, and a policy mismatch is only checked when the ledger is reopened.
- The clock is a parameter of every call; a clock that fails is not modelled.
- AssessmentLedger.DispatchFixture: no other user of the ledger acts while the callback runs, because the class has one owner; interleavings are covered by LiveDispatch.
- LiveDispatch.NextKeepsSafe: the call's flags become a program counter, and everything before the attempt lookup, the gateway itself, response checks, cleanup and the evidence contents other than the ledger label are left out.
- Evtx.ValidateEvtx: does not say which error code a rejected file gets.
- The row accounting of the EVTX import, and the external parser it calls.
- EvtxBuild.Build: record bodies and the checksum are parameters; the binary XML encoder is left out.
- GitHistory.ScanHistory: git and the patterns are parameters; parsing of tree records, path safety and subprocess handling are left out, and an aborted scan reports nothing.
- Workflow.WorkflowEntries: lines come in already split into indent, dash, key and value; the regular expressions and scalar unquoting are left out.
- Notices.ValidateRegistry: only the lifecycle part of a notice is checked; dates, sources, scopes and mappings are left out.
- Command line, catalog, portable export, worker supervisor, other assessments and laboratory scripts: input and output plumbing or data.
