# Verification of cookie rotation, the started-run ledger and batch settings

This project models the parts of Enji Guard CLI that have to be right under crashes,
failing writes and concurrency, and proves what they promise.

**Cookie rotation** (`StateMachine` to `Projection`). One supervisor sends at most one
refresh request per credential revision and reservation, over three files: the
credential, a rotation journal with a recovery budget, and an outbox of outcomes. Three
layers are connected:

- `StateMachine`, `Journal`, `Outbox` and `Budget` are the pure code: transitions, the
  file formats with their validity rules, and the recovery budget.
- `Protocol` is the whole protocol as atomic steps over the disk and one process. Each
  durable write is completed, or failed with the old or the new content in place; imports
  and crashes may come between any two steps; all choice is in the action. `Invariants`
  holds what every step keeps and `Runs` what is read off a run. `DispatchBudget`,
  `OutcomeDelivery`, `Successors`, `Refinement`, `StoppedRevisions` and `Projection` prove
  the guarantees over every run from every disk the service may first start on. Restarts
  are part of a run. `Exchanges` constructs runs, and `BudgetLimits` and `WindowLimits`
  use them to show where the dispatch budget and the recovery window end.
- `Plans` says what each coordinator operation writes, in order. `Coordinator` is the
  class itself, whose methods are proved to perform their plan or, when a write fails, a
  prefix of it. A plan branches as its method does; what it means is proved without it.
  `Decisions` states, from the disk alone, what each operation answers and exactly when a
  request is sent. `Effects` states what a completed operation leaves in the credential
  file, the journal and the outbox. `PlanRuns` proves that every plan, cut off anywhere or
  with its last write failing, is a run of the protocol, so that the guarantees hold of the
  class. `RefreshRuns` joins them into one run for a whole refresh. `StartupRecovery`
  proves startup restartable. `AtomicJson` proves the old-or-new write that all of this
  rests on, and `AutoRefresh` the loop's own bookkeeping.

Some intended guarantees hold only under a side condition. Each is kept as the code has
it, with the condition explicit.

- The dispatch budget of a revision is thrown away by deleting the reservation of a
  recovery after a POST, and by scheduling after a recovery without having read its
  journal. It holds up to such a step and exactly until one
  (`BudgetHoldsExactlyUntilForgotten`); each of the two allows any number of POSTs with a
  clock that only moves forward (`DroppedBudgetsAreUnlimited`, `BlindBudgetsAreUnlimited`).
- The same two faults let a recovery be reserved after the window of the last opening
  closed: dropping the reservation, after which a first request opens a new window, and
  scheduling unread, which replaces the deadline, when it is later than the opening. The
  window holds up to such a step and exactly until one
  (`WindowHoldsExactlyUntilReopened`).
- An import that cannot read the journal loses the outcome waiting there, exactly when it
  was not delivered (`BlindImportLosesTheWaitingOutcome`, `StepDelivers`).
- A successor in memory is lost by a crash, by an exception group from a failed temporary
  file cleanup, and by a credential file that cannot be read, exactly when it was not yet
  durable, and is superseded by an import exactly before it arrived
  (`DroppingMemoryLosesExactly`, `ImportSupersedesExactly`).
- Projecting a retained successor after its journal's deletion failed late records the
  journal again, the one move the pure machine does not have (`EveryStepRefinesExcept`).
- Two writes produce a journal the reader refuses (`OnlyTwoWritesCorrupt`).
- A scheduled recovery whose not-before time equals its deadline can never be dispatched
  (`ScheduledWindow`).
- A ledger file that cannot be read or decoded counts as empty: a start that records over
  it drops every other guard, and a start that reconciles over it calls the gateway again.
  A start whose record cannot be written has started its run all the same. The guard holds
  exactly without these (`SecondStartExactly`, `RepeatedStartIsRefused`, `TwoStarts`).
- A poll sleeps by a clock read before the heartbeat, so a slow heartbeat carries the sleep
  past the deadline (`OvershootIsExact`).

**The started-run ledger** (`Lifecycle`, `Ledger`, `LedgerFile`, `StartGuard`): the merge of
local entries with upstream rows, the transactions and their interleavings with reads and
writes that may fail, the guard against starting a billable run twice, from the record one
start writes to the refusal of the next, and its agreement with the status report. The one
disagreement is stated exactly (`StatusAndStartDisagreeExactly`).

**Batches and polling** (`Batch`, `Subscriptions`, `Polling`): fail-fast batches over
idempotent planners, why retrying them converges and that what they converge to is what
was asked for, field by field, and the iteration bounds of the two polling loops.

Where documents and code differ, the code is modelled. The repository's README (line 440)
speaks of a v2 rotation journal and says that a dispatched request is never replayed
automatically; the code writes version 3 and replays within the recovery budget.
`docs/decisions.md` (lines 145-152) says that one total dispatch cap applies across every
restart; the code drops it on the paths named above.

The source's exceptions are results (`Reply`, `Outcome`), timestamps are integer seconds,
polling clocks are reals, a JSON object is a record of fields, and sort keys are sequences
of numbers.

## Model

| member | source | states |
|---|---|---|
| StateMachine.EveryDispatchWasReserved | src/enji_guard_cli/auth_session/state_machine.py:194-290 | over every sequence of events, dispatch effects never outnumber reservations |
| StateMachine.StoppedGenerationStays | src/enji_guard_cli/auth_session/state_machine.py:278-290 | without an import or an authorised recovery, no sequence of events moves a rejected or unknown generation or dispatches for it |
| StateMachine.PossibleExactlyWhen | src/enji_guard_cli/auth_session/state_machine.py:194-325 | which events each state takes: an import always, one beginning, one dispatch, one answer, recovery of whatever was begun, and another dispatch of an unknown outcome inside the limits (6; 4, 1, 1) |
| StateMachine.EffectsOfAStep | src/enji_guard_cli/auth_session/state_machine.py:194-290 | a step keeps the generation's revision until an import, persists a new generation before the exchange or the installation it asks for, and deletes the journal of one given up |
| StateMachine.EventKeyIsInjective | src/enji_guard_cli/auth_session/state_machine.py:328-346 | two event keys are equal exactly when revision and outcome are, for every revision text |
| Journal.JournalRoundTrip | src/enji_guard_cli/auth_session/store.py:536-553 | a written v3 journal loads back as the same state, flag and attempt exactly when the reader's rules hold of it, and as corrupt otherwise |
| Journal.ReaderAcceptsOnlyWritableJournals | src/enji_guard_cli/auth_session/store.py:536-553 | whatever v3 payload the reader accepts satisfies its rules on typed values, and writing it back loads as the same |
| Journal.AcceptedPayloadIsTyped | src/enji_guard_cli/auth_session/store.py:732-867 | what an accepted v3 payload says field by field: a terminal state has its own values, outcome and event key, an active one none of them |
| Journal.V2MigrationIsConservative | src/enji_guard_cli/auth_session/store.py:555-615 | a loaded v2 journal is never a request in flight and never schedules a retry; rewriting it is unreadable exactly when it was REQUESTED |
| Journal.V2LoadsExactly | src/enji_guard_cli/auth_session/store.py:555-615 | exactly which v2 payloads load, and as which state and attempt |
| Journal.AttemptRoundTrip | src/enji_guard_cli/auth_session/store.py:883-1003 | the attempt fields parse back to the attempt exactly when it is valid, and are refused otherwise |
| Journal.StateRoundTrip | src/enji_guard_cli/auth_session/store.py:732-867 | the state fields of a written journal parse back to the state, and the raw-state rule agrees with the rule on typed values |
| Invariants.StoredJournalIsThePayload | src/enji_guard_cli/auth_session/store.py:329-344 | the stored-journal abstraction reads exactly as the parser reads the payload written for it |
| Invariants.MigratedJournalIsThePayload | src/enji_guard_cli/auth_session/store.py:555-615 | every v2 file that loads has the shape the protocol's starting disks allow |
| Outbox.ParseOutbox | src/enji_guard_cli/auth_session/store.py:618-635 | the parsing loop accepts exactly files whose records are all well formed with unique keys, and returns them in order |
| Outbox.OutboxRoundTrip | src/enji_guard_cli/auth_session/store.py:1041-1045 | a written outbox loads back as itself exactly when its keys are unique and its records well formed |
| Outbox.EnqueueKeepsUnique | src/enji_guard_cli/auth_session/store.py:397-407 | enqueueing keeps keys unique, keeps all prior records in order and adds exactly the new key |
| Outbox.AcknowledgeRemovesOneKey | src/enji_guard_cli/auth_session/store.py:410-430 | acknowledging removes exactly the accepted key |
| Outbox.AcknowledgeKeepsUnique | src/enji_guard_cli/auth_session/store.py:410-430 | acknowledging keeps keys unique |
| Outbox.EveryTerminalRecordIsWellFormed | src/enji_guard_cli/auth_session/coordinator.py:964-966 | the record of any terminal state passes the outbox reader |
| Outbox.WellFormedKeysExactly | src/enji_guard_cli/auth_session/store.py:618-635 | a record passes the reader exactly when its key is its outcome's event key for some revision, or the one with no revision in which the two colons are one |
| Budget.BudgetAndGuardAgree | src/enji_guard_cli/auth_session/coordinator.py:469-592 | whenever the next attempt exists and its cooldown is over, the state machine's guard accepts it if and only if dispatch_count is one plus the lane counts |
| Budget.RecoverySpendsTheCap | src/enji_guard_cli/auth_session/coordinator.py:544-592 | each recovery spends one unit of the cap and one of its own lane, moves no deadline, and lowers cap minus dispatch_count |
| Budget.NextAttemptExistsExactlyWhen | src/enji_guard_cli/auth_session/coordinator.py:544-592 | a next attempt exists exactly while the attempt is scheduled, its lane and the cap are open and the deadline lies ahead |
| Budget.ScheduledWindow | src/enji_guard_cli/auth_session/coordinator.py:1093-1143 | a scheduled lane is dispatchable exactly within [not-before, deadline), which is empty when the two meet |
| Budget.SchedulesExactlyWhen | src/enji_guard_cli/auth_session/coordinator.py:1093-1155 | a recovery is scheduled exactly when the cap and its lane (4, 1 and 1) have a dispatch left and its delay (10, 30 and 30 seconds) ends by the deadline; otherwise the attempt is stopped, for the reason that failed |
| Budget.SchedulingKeepsTheBudget | src/enji_guard_cli/auth_session/coordinator.py:1093-1143 | scheduling changes no count, keeps an existing deadline, and either schedules the lane while it is open or stops |
| Budget.StopRecordIsReadableExactlyWhen | src/enji_guard_cli/auth_session/coordinator.py:521-532 | the stop record written for an unfinished recovery loads back if and only if the attempt was not scheduled |
| Invariants.StepKeepsOrigins | src/enji_guard_cli/auth_session/coordinator.py:268-905 | every write, send, answer, import and crash keeps revisions fresh and every successor traced to its source |
| Invariants.StepKeepsControl | src/enji_guard_cli/auth_session/coordinator.py:667-734 | while an exchange or its successor is in memory and its source current, the journal is this process's REQUESTED record or that successor's ROTATED one |
| Invariants.StepKeepsClosure | src/enji_guard_cli/auth_session/coordinator.py:837-853 | every write leaves a journal that is readable or has one of the two known corrupt shapes, with a funded budget while it can still dispatch |
| Invariants.RunKeepsSound | src/enji_guard_cli/auth_session/coordinator.py:268-943 | the three invariants hold at every state of every run |
| Invariants.StartIsSound | src/enji_guard_cli/auth_session/coordinator.py:785-791 | every disk the service may first start on satisfies them |
| DispatchBudget.DispatchesStayWithinBudget | src/enji_guard_cli/auth_session/coordinator.py:373-396 | in every run that does not throw the budget of r away, POSTs for r, counted from the run alone, are at most 6, at most 1/4/1/1 by lane, and never more than the durable journal granted |
| DispatchBudget.RecoveriesStayInsideTheWindow | src/enji_guard_cli/auth_session/coordinator.py:518-542 | in every run, a recovery is reserved before the deadline of the last opening, which is the first reservation unless a commit replaced a deadline it could not read; while the budget is remembered the opening is not repeated after a POST |
| DispatchBudget.StepKeepsBudget | src/enji_guard_cli/auth_session/coordinator.py:469-592 | every step keeps sent within granted, granted within the caps, and room for the one dispatch a reservation announces |
| DispatchBudget.StepCounts | src/enji_guard_cli/auth_session/coordinator.py:469-516 | one step adds to what was sent for a revision exactly what it posts, and goes on counting unless it forgets the budget |
| DispatchBudget.RunConserves | src/enji_guard_cli/auth_session/coordinator.py:469-516 | whatever is forgotten, what was sent for a revision is exactly what the run posted |
| BudgetLimits.BudgetHoldsExactlyUntilForgotten | src/enji_guard_cli/auth_session/coordinator.py:430-432 | from any step of a run that remembered the budget, every remembering continuation stays within it if and only if the step does not forget it: deletes a recovery reservation after a POST, or schedules after a recovery without reading its journal; otherwise some continuation with no clock turned back exceeds it |
| BudgetLimits.DroppedBudgetsAreUnlimited | src/enji_guard_cli/auth_session/coordinator.py:430-432 | for every n, a run with a rising clock that deletes recovery reservations sends n first requests for one revision, ten seconds apart |
| BudgetLimits.BlindBudgetsAreUnlimited | src/enji_guard_cli/auth_session/coordinator.py:748-783 | for every n, a run with a rising clock that commits unclear answers without reading the journal sends n safe retries for one revision |
| WindowLimits.WindowHoldsExactlyUntilReopened | src/enji_guard_cli/auth_session/coordinator.py:518-542 | once a revision was posted, a step of a run that dropped no recovery reservation leaves its recoveries inside the window of the last opening, in every continuation with rising clocks and neither fault again, if and only if it neither schedules unread later than that opening nor drops a recovery reservation; otherwise some continuation reserves a recovery after the window closed |
| WindowLimits.RunKeepsRecord | src/enji_guard_cli/auth_session/coordinator.py:398-440 | until a recovery reservation is dropped, a posted revision that is current keeps its journal, past the reservation of its first request |
| Exchanges.KeepsExchanging | src/enji_guard_cli/auth_session/coordinator.py:518-592 | every order of lanes that fits the remaining budget is sent by some run inside the window, lane by lane |
| DispatchBudget.RecoveryIsFunded | src/enji_guard_cli/auth_session/coordinator.py:534-542 | a recovery is only ever reserved from a stored, funded journal |
| OutcomeDelivery.OutcomesAreDeliveredAtLeastOnce | src/enji_guard_cli/auth_session/coordinator.py:828-904 | at every point of every run in which no import deletes an undelivered outcome it could not read, each terminal event key ever readable in the journal was accepted, waits in the outbox, or is the current unmarked journal's, and outbox keys are unique; the next step keeps that exactly when it is not such an import |
| OutcomeDelivery.StepDelivers | src/enji_guard_cli/auth_session/coordinator.py:837-867 | every step keeps delivery if and only if it does not delete an undelivered outcome it could not read |
| OutcomeDelivery.BlindImportLosesTheWaitingOutcome | src/enji_guard_cli/auth_session/coordinator.py:930-943 | an import that could not read the journal loses exactly the outcome waiting there and no other |
| Successors.SuccessorIsNeverLost | src/enji_guard_cli/auth_session/coordinator.py:667-734 | after a successful exchange for the current revision, whatever writes fail and through every crash once the cookie is durable and every import once it arrived: it was installed, or is in a durable ROTATED journal, or in memory; the next step keeps that exactly when it is neither an import before it arrived nor a loss of memory before it was durable |
| Successors.DroppingMemoryLosesExactly | src/enji_guard_cli/auth_session/coordinator.py:975-977 | a crash, an uncaught exception group or a credential that cannot be read loses the successor exactly when it was neither durable nor installed |
| Successors.ImportSupersedesExactly | src/enji_guard_cli/auth_session/coordinator.py:930-943 | an import loses a successor exactly when it had not arrived yet |
| Successors.CredentialChangesOnlyForward | src/enji_guard_cli/auth_session/store.py:433-458 | the credential file changes only by an import of a new revision or by replacing exactly a successor's source with its cookie |
| Successors.ReplacedRevisionNeverReturns | src/enji_guard_cli/auth_session/coordinator.py:455-467 | a revision that was replaced never becomes current again, in any interleaving |
| Successors.CredentialProvenance | src/enji_guard_cli/auth_session/coordinator.py:685-734 | whatever is in the credential file was there at the start, was imported, or is the exact cookie some exchange of this run answered, under its own revision |
| Successors.EveryMintWasAnswered | src/enji_guard_cli/auth_session/coordinator.py:680-684 | every successor on record came from an answered exchange sent with its source |
| Refinement.EveryStepRefinesExcept | src/enji_guard_cli/auth_session/state_machine.py:194-290 | two consecutive durable generations are a stutter or the transition of the event the action performs, with its own cookie, reason and spent budget, except exactly when a journal already deleted is recorded again, which is no transition |
| Refinement.RunIsReplay | src/enji_guard_cli/auth_session/state_machine.py:194-290 | a whole run without that exception is the replay of its actions' own events in the pure machine, ending in the generation on disk |
| Refinement.DeletedJournalIsRecordedAgain | src/enji_guard_cli/auth_session/coordinator.py:707-720 | the exception is reachable: a deletion whose directory sync fails, then a projection of the retained successor |
| StoppedRevisions.StoppedForGood | src/enji_guard_cli/auth_session/coordinator.py:398-440 | once the journal is REJECTED, a stopped unknown outcome or unreadable, no exchange is ever sent for that revision again, and only an import that lands leaves the state |
| StoppedRevisions.OnlyTwoWritesCorrupt | src/enji_guard_cli/auth_session/coordinator.py:521-532 | a journal that loads stops loading exactly by stopping a scheduled attempt, or by rewriting one migrated from an in-flight v2 request |
| StartupRecovery.RestartedStartupConverges | src/enji_guard_cli/auth_session/coordinator.py:785-867 | however often startup recovery is cut off, after whichever writes and at whatever times, completing it reaches the same credential, journal state, flag, budget and outcomes as one uninterrupted run |
| StartupRecovery.RotatedJournalIsAlwaysInstalled | src/enji_guard_cli/auth_session/coordinator.py:455-467 | a ROTATED journal over its source ends with the successor installed if and only if the stored credential is a cookie, through any number of cut-off startups |
| StartupRecovery.StartupSteers | src/enji_guard_cli/auth_session/coordinator.py:785-826 | every prefix of a startup's writes heads for one goal computed from the disk, and the whole reaches it |
| StartupRecovery.DrainLeaves | src/enji_guard_cli/auth_session/coordinator.py:855-867 | a drain removes from the outbox, and adds to the accepted, exactly the keys the sink took |
| PlanRuns.StartupRuns | src/enji_guard_cli/auth_session/coordinator.py:785-826 | startup recovery, cut off after any write, is a run of the protocol |
| PlanRuns.PrepareRuns | src/enji_guard_cli/auth_session/coordinator.py:373-440 | preparation, cut off after any write, is a run of the protocol, and ends about to send exactly when it returns a dispatch |
| PlanRuns.CommitRuns | src/enji_guard_cli/auth_session/coordinator.py:667-783 | committing an answer is a run, keeps the successor in memory until recorded, and may then finish |
| PlanRuns.ProjectRuns | src/enji_guard_cli/auth_session/coordinator.py:707-734 | projecting the retained successor is a run, after which the loop may clear its buffer |
| PlanRuns.ImportRuns | src/enji_guard_cli/auth_session/coordinator.py:930-943 | an import is a run, whatever the refresher is doing between its own lock sections |
| PlanRuns.RecordRuns | src/enji_guard_cli/auth_session/coordinator.py:837-853 | recording a terminal outcome is a run that leaves it marked, or deletes a delivered ROTATED journal |
| PlanRuns.PrepareNeverRaisesInvalidTransition | src/enji_guard_cli/auth_session/coordinator.py:494-516 | nothing reachable makes preparation raise InvalidTransitionError |
| PlanRuns.CutOffKeepsGuarantees | src/enji_guard_cli/auth_session/coordinator.py:268-943 | an operation cut off after any write leaves a disk that keeps the invariants, the delivery of outcomes, the dispatch budget and every successor its steps do not lose |
| PlanRuns.FailedWriteKeepsGuarantees | src/enji_guard_cli/auth_session/coordinator.py:268-943 | so does an operation whose write fails with the old or the new content in place; the failing write is a step of the protocol itself |
| PlanRuns.FailedPrepareEndsIdle | src/enji_guard_cli/auth_session/coordinator.py:373-440 | a preparation cut off by a failing write leaves the process idle, with nothing about to be sent |
| PlanRuns.FailedCommitRetains | src/enji_guard_cli/auth_session/coordinator.py:667-734 | a successful exchange whose commit is cut off by a failing write leaves its successor to the loop, which retains it |
| Decisions.PreparationIsAnswered | src/enji_guard_cli/auth_session/coordinator.py:373-467 | for every disk, from credential and journal state alone: no cookie, an unusable journal, a first request or an overtaken caller, the installed or the installing successor, a live or a dead owner, an open, cooling, unaccounted or closed recovery, a rejection; and the exact condition under which anything is sent |
| Decisions.CommitIsAnswered | src/enji_guard_cli/auth_session/coordinator.py:667-783 | a credential replaced meanwhile is returned as it is; a success returns the successor, or the credential if it is no cookie; a refusal is terminal; an unclear answer may be retried exactly when its lane can be scheduled |
| Decisions.ProjectionIsAnswered | src/enji_guard_cli/auth_session/coordinator.py:707-734 | a retained successor is returned once it is or gets installed over its own source, and superseded otherwise, naming the current revision |
| Effects.RecordLeaves | src/enji_guard_cli/auth_session/coordinator.py:837-867 | recording an outcome puts it and everything waiting before the sink, exactly what the sink takes leaves the outbox, and the journal is marked, or gone for a rotation the sink took |
| Effects.RecordAgainLeaves | src/enji_guard_cli/auth_session/coordinator.py:837-867 | recording a marked outcome again enqueues nothing and only deletes the journal of a delivered rotation |
| Effects.DiscardLeaves | src/enji_guard_cli/auth_session/coordinator.py:828-835 | discarding deletes the journal and leaves a terminal outcome that was not marked waiting |
| Effects.ImportLeaves | src/enji_guard_cli/auth_session/coordinator.py:930-943 | an import leaves the imported credential, no journal, and an unmarked outcome it could read waiting |
| Effects.CommitIsDone | src/enji_guard_cli/auth_session/coordinator.py:667-783 | what a commit leaves, for every answer: the successor in the credential file exactly over a cookie, the journal of the outcome with its source, reason, carried attempt and next not-before time, and its event key taken or waiting |
| Effects.PreparationReturnsTheStored | src/enji_guard_cli/auth_session/coordinator.py:373-467 | a credential that preparation returns is the one then stored |
| Effects.ProjectionLeaves | src/enji_guard_cli/auth_session/coordinator.py:707-734 | a projection that returns a credential leaves it stored and its rotation taken or waiting; a superseded one leaves credential and outbox alone |
| Effects.InterruptionIsWritten | src/enji_guard_cli/auth_session/coordinator.py:442-453 | a request whose owner died is written down as unknown and offered to the sink, with one replay in 30 seconds if it can be scheduled and stopped if not |
| Effects.ClosedRecoveryIsWritten | src/enji_guard_cli/auth_session/coordinator.py:518-532 | an unknown outcome whose recovery is closed is written down as stopped, with its own reason or for want of budget, counts and deadline unchanged |
| RefreshRuns.RefreshIsRun | src/enji_guard_cli/auth_session/coordinator.py:299-348 | a whole refresh that sends, with the imports landing meanwhile complete or cut off, and its commit complete or cut off, is one run of the protocol that posts exactly once, for the credential found, and ends with the disk the refresh left |
| Coordinator.RefreshCoordinator.Refresh | src/enji_guard_cli/auth_session/coordinator.py:299-348 | without an exchange, preparation or a prefix of it, with the answer the disk decides; otherwise one exchange for the stored cookie after the whole preparation, then the imports that landed, then the commit plan of what they left or a prefix, with the answer that disk decides; sent exactly when the disk says so, unless a write fails first; a storage failure after a successful answer hands over exactly that successor |
| Coordinator.DispatchIsDurable | src/enji_guard_cli/auth_session/coordinator.py:469-516 | from any disk at all, a returned dispatch finds the REQUESTED journal of that revision and this owner on disk, under a first attempt (one of six, a window of 600 seconds) or one more than the journalled attempt in the lane that was waited for |
| Coordinator.RefreshCoordinator.Prepare | src/enji_guard_cli/auth_session/coordinator.py:373-417 | performs the preparation plan, or on a failed write some prefix of it; a completed one answers as the disk decides, and with a cookie and no journal sends a first request exactly when the caller named no revision or the current one, and returns the credential otherwise |
| Coordinator.RefreshCoordinator.RecoverMatchingState | src/enji_guard_cli/auth_session/coordinator.py:419-453 | the same for a journal about the current revision |
| Coordinator.RefreshCoordinator.RecoverUnknown | src/enji_guard_cli/auth_session/coordinator.py:518-542 | stops, waits or dispatches as the budget says, writing that record or leaving the old one |
| Coordinator.RefreshCoordinator.PrepareDispatch | src/enji_guard_cli/auth_session/coordinator.py:469-516 | RESERVED then REQUESTED, or a prefix |
| Coordinator.RefreshCoordinator.RecoverRotated | src/enji_guard_cli/auth_session/coordinator.py:455-467 | installs over exactly the source, then records; leaves a credential that is not a cookie alone |
| Coordinator.RefreshCoordinator.CommitAnswer | src/enji_guard_cli/auth_session/coordinator.py:667-783 | commits a success, rejection or unknown answer unless superseded, or a prefix of it; a completed one answers as the disk decides |
| Coordinator.RefreshCoordinator.ProjectRetainedSuccessor | src/enji_guard_cli/auth_session/coordinator.py:707-734 | records, projects or reports superseded, or a prefix; a completed one answers by the stored credential alone |
| Coordinator.RefreshCoordinator.RecoverStartup | src/enji_guard_cli/auth_session/coordinator.py:785-791 | performs the startup plan or a prefix |
| Coordinator.RefreshCoordinator.RecoverStartupJournal | src/enji_guard_cli/auth_session/coordinator.py:793-826 | performs the journal part of it or a prefix |
| Coordinator.RefreshCoordinator.DiscardRotationState | src/enji_guard_cli/auth_session/coordinator.py:828-835 | retains an unmarked outcome before deleting the journal, or a prefix |
| Coordinator.RefreshCoordinator.RecordTerminalOutcome | src/enji_guard_cli/auth_session/coordinator.py:837-853 | enqueue, mark, drain, delete a delivered ROTATED journal, or a prefix |
| Coordinator.RefreshCoordinator.DrainOutbox | src/enji_guard_cli/auth_session/coordinator.py:855-867 | offers every record once and acknowledges the accepted ones, or stops at a failed acknowledgement |
| Coordinator.RefreshCoordinator.ImportCredential | src/enji_guard_cli/auth_session/coordinator.py:930-943 | new credential, then the pending outcome, then no journal, or a prefix |
| AutoRefresh.RetainedSuccessorBuffer.Clear | src/enji_guard_cli/auth_session/auto_refresh.py:142-149 | drops only the very successor that was projected |
| AutoRefresh.AutoRefreshLoop.RunPass | src/enji_guard_cli/auth_session/auto_refresh.py:172-249 | a retained successor goes exactly when a pass answers it, which restarts both counters; a refresh is made exactly with nothing retained and a credential due; one that failed after its dispatch leaves its successor in the buffer, and no other pass fills it; only an unchanged credential's failure before dispatch counts, up to the limit |
| AutoRefresh.RetainedUntilAnswered | src/enji_guard_cli/auth_session/auto_refresh.py:182-198 | however often its projection fails, a retained successor is kept and no refresh is attempted until one is answered |
| AutoRefresh.FailedDispatchIsRetained | src/enji_guard_cli/auth_session/auto_refresh.py:218-228 | from a refresh that failed after its dispatch, any number of unanswered passes keep the successor and refresh nothing, and the answering pass empties the buffer and both counters |
| AutoRefresh.KeptExactlyWhenFailed | src/enji_guard_cli/auth_session/auto_refresh.py:180-228 | from an empty buffer, a successor is kept exactly when some refresh failed after minting it and no pass answered since |
| AutoRefresh.FailuresFallBack | src/enji_guard_cli/auth_session/auto_refresh.py:315-356 | after n local failures in a row the retry count is n modulo limit plus one: every (limit + 1)-th takes the long wait |
| AutoRefresh.RetriesStayWithinLimit | src/enji_guard_cli/auth_session/auto_refresh.py:315-356 | the retry count never exceeds its limit, over every sequence of passes |
| Projection.ObserversAreServed | src/enji_guard_cli/auth_session/projection.py:159-212 | over every run that avoids the two corrupting writes, an observer gets the current credential exactly while no successor awaits installation, and never the impossible state |
| Projection.ObserverUsesTheCredential | src/enji_guard_cli/auth_session/projection.py:252-293 | on every sound disk the credential used is the stored one unless the journal is ROTATED for it or unparsable |
| Projection.ReauthIsRequiredExactlyWhenStopped | src/enji_guard_cli/auth_session/projection.py:215-249 | the operator is asked to import exactly when the current revision is stopped for good |
| Projection.ProjectionIsExact | src/enji_guard_cli/auth_session/projection.py:195-293 | for every journal: which credential is used, what the refresh is said to be doing, and when the operator has to import another one |
| Projection.UnloadedIsExact | src/enji_guard_cli/auth_session/projection.py:159-177 | a credential that cannot be loaded is used for nothing, has to be imported again, and is named by why it cannot be loaded |
| Projection.RequestInFlightIsShown | src/enji_guard_cli/auth_session/projection.py:274-284 | while a request for the stored credential is sent or answered it is shown as requested, on every sound disk, and the credential stays in use |
| AtomicJson.JsonFile.Write | src/enji_guard_cli/atomic_json.py:19-68 | the destination is the old content or the new, new exactly on completion or failure after the rename; the exception group means exactly a failed cleanup; a partial file is left only by one |
| Lifecycle.KeyOrderIsTotal | src/enji_guard_cli/audit/lifecycle.py:86-116 | sort keys are totally ordered, component by component |
| Lifecycle.KeyOrderIsTransitive | src/enji_guard_cli/audit/lifecycle.py:86-116 | the order of sort keys is transitive over the whole key |
| Lifecycle.KeyOrderIsAntisymmetric | src/enji_guard_cli/audit/lifecycle.py:86-116 | two keys each at most the other are the same key |
| Lifecycle.RepresentativeIsMaximal | src/enji_guard_cli/audit/lifecycle.py:119-122 | the representative is one of the projections and no projection has a larger key |
| Lifecycle.RepresentativeKeyIsOrderFree | src/enji_guard_cli/audit/lifecycle.py:119-122 | its key depends only on which projections there are |
| Lifecycle.KeyDeterminesTheRun | src/enji_guard_cli/audit/lifecycle.py:86-116 | rows with the same key agree in every field up to how a missing text is written, so the choice among them is immaterial |
| Lifecycle.NormalizedIsExact | src/enji_guard_cli/audit/lifecycle.py:37-64 | a status word is read without surrounding white space and with small letters, otherwise as it is |
| Lifecycle.LifecycleIsExact | src/enji_guard_cli/audit/lifecycle.py:41-71 | which status words, start and completion times make a row failed, completed, running or queued, in order of precedence |
| Lifecycle.ChoicePrefersProgress | src/enji_guard_cli/audit/lifecycle.py:80-122 | the chosen row is running if any is, else queued, failed or completed, and none of its lifecycle is newer |
| Ledger.DedupeRuns | src/enji_guard_cli/audit/ledger.py:327-332 | one run per identity in order of first appearance, each the representative of its group |
| Ledger.DedupedIsDeterministic | src/enji_guard_cli/audit/ledger.py:84-89 | exactly one run per identity, and no row has a larger sort key than its representative |
| Ledger.DedupedKeysAreOrderFree | src/enji_guard_cli/audit/ledger.py:84-89 | permuting pooled rows leaves the set of chosen sort keys unchanged |
| Ledger.ReconcileIsOrderFree | src/enji_guard_cli/audit/ledger.py:60-89 | permuting the upstream rows changes neither what a reconciliation keeps and suppresses nor the sort keys it answers, although the commit reads those rows too |
| Ledger.AnswersAreExact | src/enji_guard_cli/audit/ledger.py:83-89 | what is answered is an entry's projection or an upstream row whose task no entry speaks for; each of these is answered by a row of its task, or without one of its action, that is no weaker; and no two answers share a task |
| Ledger.SuppressionIsExact | src/enji_guard_cli/audit/ledger.py:110-187 | upstream rows are held back exactly for the tasks of undecided entries, unless the task is missing past the grace period |
| Ledger.CommitDropsExactly | src/enji_guard_cli/audit/ledger.py:110-187 | a commit drops an entry exactly when it is this repository's and expired, recorded terminal, or its own lookup completed it, gave it a terminal status, or missed it past the grace period; the looked-up status is in force unless empty |
| Ledger.LookedUpRunIsExact | src/enji_guard_cli/audit/ledger.py:158-187 | with an answer from task-by-id the run carries its status, times and task id, and what was recorded only where it says nothing; it is projected exactly while that leaves it active |
| Ledger.RecordedRunStandsIn | src/enji_guard_cli/audit/ledger.py:167-181 | without an answer the recorded run stands in, except past the grace period of a missing task, when the entry goes and holds nothing back |
| Ledger.UnidentifiedRunStandsIn | src/enji_guard_cli/audit/ledger.py:166-169 | an entry without a task id is kept, holds nothing back, and speaks exactly while no upstream row of its action is active |
| Ledger.TransactionRemovesExactly | src/enji_guard_cli/audit/ledger.py:55-58 | an entry is in the file after a transaction exactly when the transaction recorded it, or it was there and the transaction had no listed cause; a record that cannot read the file removes all others |
| Ledger.EntryDisappearsOnlyForCause | src/enji_guard_cli/audit/ledger.py:55-242 | over any interleaving of records, prunes and commits, readable or not and whether or not their writes land, an entry is there at the end exactly when nothing had a cause to remove it since it was last recorded or first there |
| Ledger.DisappearanceHasACause | src/enji_guard_cli/audit/ledger.py:55-242 | an entry that is gone was removed by a transaction with a cause, up to which it was there |
| Ledger.TransactionKeepsUnique | src/enji_guard_cli/audit/ledger.py:315-324 | identities stay unique |
| Ledger.RaisesExactly | src/enji_guard_cli/audit/ledger.py:55-210 | a transaction raises exactly when its write fails, and it writes a record always and otherwise only to remove an entry |
| LedgerFile.FileAuditLedger.RecordStarted | src/enji_guard_cli/audit/ledger.py:55-58 | replaces the entries of the same identity and appends the new one, starting over from an unreadable file; raises exactly when its write fails, leaving the old or the new content |
| LedgerFile.FileAuditLedger.Prune | src/enji_guard_cli/audit/ledger.py:189-209 | keeps exactly the live, not fresh entries it read and counts the rest; writes and can raise only if it drops one |
| LedgerFile.FileAuditLedger.PendingLookups | src/enji_guard_cli/audit/ledger.py:91-108 | each live task id of this repository that it read and that is not cached, once |
| LedgerFile.WantedIsExact | src/enji_guard_cli/audit/ledger.py:91-108 | a task is looked up exactly for an entry that the commit would have to decide |
| LedgerFile.FileAuditLedger.CommitReconciliation | src/enji_guard_cli/audit/ledger.py:110-156 | the kept entries, projected runs and suppressed ids of the commit over what it read, which CommitDropsExactly, LookedUpRunIsExact and SuppressionIsExact state over the lookups; raises exactly when a needed write fails |
| LedgerFile.ResolveLookups | src/enji_guard_cli/audit/ledger.py:277-292 | adds exactly the answers of the ids asked |
| LedgerFile.FileAuditLedger.Reconcile | src/enji_guard_cli/audit/ledger.py:60-89 | exactly what others did before each performed round (at most three) and before the commit, then one commit against the file as it then is; each id looked up once, every undecided task the last round saw and none that no round did; the deduplicated rows of what the commit read, which AnswersAreExact states |
| StartGuard.AuditStartService.StartOneAudit | src/enji_guard_cli/audit/runs.py:98-147 | already running or queued exactly when a run of the action that nothing ended is on the current or an unknown head, by the one with the largest key; up to date exactly when heads are known equal; the gateway called only otherwise; a started run whose write lands is in the file with its own repository, project, action, task, status, heads and times; a record that cannot be written raises after the call |
| StartGuard.ProceedsExactlyWhen | src/enji_guard_cli/audit/runs.py:106-124 | a start reaches the gateway exactly when no run of the action that nothing ended is on the current or an unknown head and the report is not known to be of that head |
| StartGuard.AuditStartService.Start | src/enji_guard_cli/audit/runs.py:77-95 | one reconciliation after exactly the others' transactions, then each audit decided in order against it until a record fails; gateway calls, ledger records and the file are exactly those of the decided audits |
| StartGuard.NoSecondStart | src/enji_guard_cli/audit/runs.py:106-122 | whatever other processes do and active-runs lists, a start finds the recorded run of its action on its head and does not call the gateway while the entry stands, the file can be read and neither time nor a lookup of its own task ended it |
| StartGuard.SecondStartExactly | src/enji_guard_cli/audit/ledger.py:237-242 | when only this entry speaks for its action, the guard reports a run exactly when the entry stands, the file can be read and the entry still guards |
| StartGuard.UnreadableRecordForgetsAStart | src/enji_guard_cli/audit/ledger.py:237-242 | a record of another start written while the file could not be read lets the first action be started again, whatever is read by then |
| StartGuard.TwoStarts | src/enji_guard_cli/audit/start.py:37-62 | of two starts on one file, with anything done to it between and during them, the second calls the gateway for the recorded action not at all while it is guarded and otherwise, with no other source, as often as the batch names it |
| StartGuard.RepeatedStartIsRefused | src/enji_guard_cli/audit/runs.py:106-147 | a start repeated at once with every lookup failing is refused if the first could write its record and the second can read it, and finds a run of the action, head, task id and status the gateway answered; with no other source, exactly then |
| StartGuard.RecordedRunGuards | src/enji_guard_cli/audit/start.py:37-39 | a live entry answers for its action whatever rows active-runs returned |
| StartGuard.LookedUpTaskIsAnswered | src/enji_guard_cli/audit/ledger.py:158-187 | of a task that was looked up, starts and status see one run with the looked-up status, completion and start, or no run once it is over |
| StartGuard.RecordingsAreOfTheRuns | src/enji_guard_cli/audit/runs.py:143-146 | a batch records exactly its started audits, each with its own action, task, status, heads and times |
| StartGuard.BatchStartsEachNamedAudit | src/enji_guard_cli/audit/runs.py:86-94 | a batch asks the gateway for an action as often as the batch names it, or not at all: audits must be distinct |
| StartGuard.RunsByAction | src/enji_guard_cli/audit/status.py:147-156 | for each action with an active run, the one with the strongest head evidence and then the largest key |
| StartGuard.StatusIsExact | src/enji_guard_cli/audit/status.py:82-133 | the status over heads and runs: ready or unknown by the heads alone; otherwise active, blocked, unverified or missing by the best head any run that nothing ended carries |
| StartGuard.StatusNamesItsRun | src/enji_guard_cli/audit/status.py:97-156 | an active, blocked or unverified status names the task and lifecycle of a run of its kind with the largest key |
| StartGuard.StatusAndStartAgree | src/enji_guard_cli/audit/status.py:82-133 | wait or inspect implies the guard reports a run, a proceeding guard implies missing, blocked or unknown, and the AssertionError is unreachable |
| StartGuard.StatusAndStartDisagreeExactly | src/enji_guard_cli/audit/status.py:97-111 | status says start while the guard says already running or queued exactly when no active run is on the head, some carry no head and some another |
| Batch.SettingsStore.ExecuteBatch | src/enji_guard_cli/application/mutations.py:73-113 | stops at the first failure; each result has its decision's key, status and reason, counts add up, total is completed plus remaining, and the store is that prefix applied |
| Batch.SettingsStore.SetAll | src/enji_guard_cli/application/subscriptions.py:138-164 | plans everything before the first write; the store is a prefix of that plan; each setting is reported changed, already effective or not configured by what was read and wanted |
| Batch.PlanBatch | src/enji_guard_cli/application/subscriptions.py:145-163 | one decision per setting in order: a change exactly to a wanted value that differs, unconfigured exactly without one |
| Batch.RetriesConverge | src/enji_guard_cli/application/subscriptions.py:138-164 | for an idempotent planner, any number of interrupted runs and then a completed one leave what one uninterrupted run leaves |
| Batch.InterruptedValues | src/enji_guard_cli/application/subscriptions.py:138-164 | interrupted runs leave each setting as it was or as it is to be |
| Batch.NothingLeftToChange | src/enji_guard_cli/application/subscriptions.py:138-164 | the run after a completed one has nothing to write |
| Subscriptions.SetSchedules | src/enji_guard_cli/application/subscriptions.py:138-164 | an invalid request, exactly as listed, changes nothing; after a completed run every setting named is as requested field by field; after a failure each is as it was or as requested |
| Subscriptions.ScheduleAutoTime | src/enji_guard_cli/application/subscriptions.py:166-190 | a completed run gives every configured schedule of the keys the automatic time and changes nothing else |
| Subscriptions.SetImprovementJobs | src/enji_guard_cli/application/subscriptions.py:211-250 | an invalid request, or a job that would be configured with no timezone named anywhere, changes nothing; a completed run leaves every job as requested |
| Subscriptions.SetEmailPreferences | src/enji_guard_cli/application/subscriptions.py:256-280 | a request that names nothing is refused; a completed run sets what is named and keeps the rest |
| Subscriptions.PlannedScheduleIsAsRequested | src/enji_guard_cli/audit/schedules.py:130-153 | every field a schedule request names has the requested value and every other keeps what it was or starts at its default; withheld exactly for an unconfigured audit that is not being enabled |
| Subscriptions.SchedulesAreAsRequested | src/enji_guard_cli/application/subscriptions.py:138-164 | after any number of partial failures, a completed run leaves every setting named as requested, judged by what it was before the first run, and no other touched |
| Subscriptions.SchedulePlanIsIdempotent | src/enji_guard_cli/audit/schedules.py:130-153 | a planned schedule plans to itself; what it says is PlannedScheduleIsAsRequested |
| Subscriptions.SchedulesConverge | src/enji_guard_cli/application/subscriptions.py:138-190 | retries of a schedule request converge and a third run changes nothing |
| Subscriptions.AutoTimesConverge | src/enji_guard_cli/application/subscriptions.py:166-190 | retries of setting every configured schedule to an automatic time converge and a third run changes nothing |
| Subscriptions.AutoTimesAreSet | src/enji_guard_cli/application/subscriptions.py:166-190 | the same for automatic times: every configured schedule has 00:00 and is otherwise as it was |
| Subscriptions.JobPlanIsIdempotent | src/enji_guard_cli/audit/improvement_jobs.py:73-102 | a planned improvement job plans to itself with a known timezone, keeping days and preserved auto time |
| Subscriptions.DesiredJobIsAsRequested | src/enji_guard_cli/audit/improvement_jobs.py:73-102 | every field a job request names has the requested value and every other keeps what it was or starts at its default; refused exactly without any timezone |
| Subscriptions.JobsConverge | src/enji_guard_cli/application/subscriptions.py:211-250 | retries of an improvement-job request that can be planned can always be planned again, converge, and a third run changes nothing |
| Subscriptions.JobsAreAsRequested | src/enji_guard_cli/application/subscriptions.py:211-250 | after any number of partial failures, a completed run leaves every job named as requested, judged by what it was before the first run |
| Subscriptions.EmailSkipsExactlyNoOps | src/enji_guard_cli/application/subscriptions.py:355-357 | the email writer skips a write exactly when it would change nothing |
| Subscriptions.EmailsConverge | src/enji_guard_cli/application/subscriptions.py:256-280 | retries of an email request converge and a third run changes nothing |
| Subscriptions.EmailsAreAsRequested | src/enji_guard_cli/application/subscriptions.py:256-280 | after any number of partial failures, a completed run leaves each preference as requested or, not named, as it was |
| Subscriptions.TimeSelectionIsStable | src/enji_guard_cli/audit/scheduling.py:69-99 | selecting again from what was selected changes nothing, for both selections |
| Subscriptions.NormalTimeIsFixed | src/enji_guard_cli/audit/scheduling.py:54-61 | a normalised clock time is a fixed point and is never the word auto |
| Subscriptions.NormalTimeIsExact | src/enji_guard_cli/audit/scheduling.py:54-61 | digits around a colon are accepted exactly up to 23 and 59 and written as two digits each |
| Subscriptions.OnlyTimesAreAccepted | src/enji_guard_cli/audit/scheduling.py:54-61 | whatever is accepted is digits around a colon |
| Polling.WaitForCompletion | src/enji_guard_cli/audit/wait.py:16-49 | refuses exactly the invalid options; at most ceil(timeout / poll) + 1 evaluations, and exactly as many when a timeout was spent sleeping alone; every sleep planned at the last reading to end by the deadline; heartbeats spaced; a timeout only at or after the deadline; the result of the last read, whose reason says complete exactly when it is |
| Polling.OvershootIsExact | src/enji_guard_cli/audit/wait.py:33-40 | a planned sleep goes past the deadline exactly when whatever ran since the clock was read, such as a heartbeat, took longer than the slack, and then by exactly the difference |
| Polling.WaitForCredentialChange | src/enji_guard_cli/auth_session/auto_refresh.py:451-497 | the same bounds and sleeps, plus one evaluation if the watcher broke; false only at or after the deadline with the last read unchanged, true only for a changed read or a watcher event |

## Left out

- HTTP, cookies, tokens and the classification of a refresh response: an exchange is answered with a cookie, a refusal or an unclear result with a lane.
- JSON text, ISO dates, uuids, flock and procfs: records of fields, integers, fresh revisions, atomic lock sections and a truthful owner-alive oracle stand for them. A timestamp field holds a timestamp or null; a text that is no date is not modelled.
- Several refresher processes at once: the supervisor is the sole owner, so one process runs at a time and a restart has a new identity. The instance lock is therefore not modelled.
- asyncio cancellation, telemetry observations, error messages and the `base_url` of a credential. A failure of the commit after a transport error, which the source does not translate, appears as the process forgetting everything in memory.
- An outbox file that cannot be read or parsed inside an operation; its parser is modelled on its own. The sink answers the same for one key throughout one operation.
- A journal without an attempt, which the reader never returns.
- A rotation journal of the previous version that names an empty successor, or its own source as successor: the starting disks exclude it.
- The wait of a refresh for a terminal revision (`wait_for_terminal_revision`).
- The methods of `RefreshCoordinator` find the credential file either absent or readable; a credential that exists and cannot be loaded is a fault of the protocol's steps (`Abandon`, `Forget`) only.
- Protocol steps are a superset of what the code does: a step may be enabled where the code would not take it, never the reverse for the operations of `PlanRuns`.
- StartupRecovery.RestartedStartupConverges: the set of live owners and the sink's answers are the same across the restarts; it compares budgets and outcomes, not timestamps.
- The ledger's JSON encoding beyond two facts: a file that cannot be decoded reads as empty, and a record without repository, project or action is skipped. Its reentrant thread lock, since no locked section nests, and a lock file that cannot be opened, which raises before anything is read, as does a file that is not UTF-8.
- Status text is normalised over ASCII only, and a clock time has ASCII digits only, where `str.isdigit` accepts other decimal digits. Timestamps carry their text and the instant it parses to.
- StartGuard.NoSecondStart: covers entries with a task id; the legacy entry without one is guarded only by the action-level rule, and only until an upstream row is active. Task-by-id answers about the task it was asked about.
- Task bodies, runbooks and gateway errors other than an upstream or malformed response, which abort a start; artifact links and readability in the status.
- Timezone names, selectors, catalog definitions and target resolution of the settings commands. A store reads back what was written.
- Batch.SettingsStore.ExecuteBatch: programming errors escape in the source before any result exists and are not modelled. The counter the source calls `unchanged` is called `same`.
- AutoRefresh.AutoRefreshLoop.RunPass: delays, jitter and log events are left out, and an error the loop does not handle ends it.
- Readiness hysteresis, fanout, GitLab paging, catalog diffing, the CLI, MCP and presenters: no member here models them.
