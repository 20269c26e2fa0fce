// The durable recovery budget: the pure helpers of auth_session/coordinator.py that
// decide whether, when and in which lane a source revision may be dispatched again.
module Budget {
  import opened Wrappers
  import opened StateMachine
  import opened Journal

  datatype RefreshOwner = RefreshOwner(bootId: string, pid: int, startTicks: string)

  predicate OwnerIsValid(owner: RefreshOwner) {
    owner.bootId != "" && owner.pid > 0 && owner.startTicks != ""
  }

  // Ownership counts only when the complete identity is present.
  function AttemptOwner(a: RotationAttempt): Option<RefreshOwner> {
    if a.ownerBootId.None? || a.ownerPid.None? || a.ownerStartTicks.None? then None
    else Some(RefreshOwner(a.ownerBootId.value, a.ownerPid.value, a.ownerStartTicks.value))
  }

  function WithoutOwner(a: RotationAttempt): RotationAttempt {
    a.(ownerBootId := None, ownerPid := None, ownerStartTicks := None)
  }

  // The attempt a dispatch is reserved under (_prepare_dispatch).
  function Owned(a: RotationAttempt, owner: RefreshOwner): RotationAttempt {
    a.(continuation := None, ownerBootId := Some(owner.bootId), ownerPid := Some(owner.pid),
       ownerStartTicks := Some(owner.startTicks), nextAttemptAt := None, stopReason := None)
  }

  // The first dispatch of a revision (_prepare).
  function FirstAttempt(source: Revision, now: int): RotationAttempt {
    FreshAttempt(source, 1).(deadline := Some(now + RECOVERY_WINDOW))
  }

  predicate DeadlinePassed(deadline: Option<int>, now: int) {
    deadline.None? || now >= deadline.value
  }

  function SecondsUntil(timestamp: Option<int>, now: int): nat {
    if timestamp.None? || timestamp.value <= now then 0 else timestamp.value - now
  }

  function LaneDelay(lane: Lane): int {
    match lane
    case SafeRetry => SAFE_RETRY_DELAY
    case ValidationRecovery => VALIDATION_RETRY_DELAY
    case AmbiguityReplay => AMBIGUITY_REPLAY_DELAY
  }

  predicate ContinuationAvailable(a: RotationAttempt, lane: Lane) {
    a.dispatchCount < a.cap && a.LaneCount(lane) < LaneLimit(lane)
  }

  const BUDGET_EXHAUSTED := "recovery-budget-exhausted"
  const DEADLINE_EXHAUSTED := "recovery-deadline-exhausted"

  function StopWith(a: RotationAttempt, deadline: int, reason: string): RotationAttempt {
    WithoutOwner(a).(deadline := Some(deadline), continuation := Some(Stopped), nextAttemptAt := None,
                     stopReason := Some(reason))
  }

  // _with_continuation: schedule one lane, or stop.
  function WithContinuation(a: RotationAttempt, lane: Lane, freshDeadline: int, now: int): RotationAttempt {
    var deadline := if a.deadline.Some? then a.deadline.value else freshDeadline;
    var next := now + LaneDelay(lane);
    if !ContinuationAvailable(a, lane) then StopWith(a, deadline, BUDGET_EXHAUSTED)
    else if now >= deadline || next > deadline then StopWith(a, deadline, DEADLINE_EXHAUSTED)
    else
      WithoutOwner(a).(deadline := Some(deadline), continuation := Some(Scheduled(lane)),
                       nextAttemptAt := Some(next), stopReason := None)
  }

  function Spent(a: RotationAttempt, lane: Lane): RotationAttempt {
    RotationAttempt(
      a.rotationId, Recovery(lane), a.dispatchCount + 1,
      a.safeRetries + (if lane.SafeRetry? then 1 else 0),
      a.validationRetries + (if lane.ValidationRecovery? then 1 else 0),
      a.ambiguityReplays + (if lane.AmbiguityReplay? then 1 else 0),
      a.deadline, a.continuation, None, None, None, a.nextAttemptAt, a.cap, None, None)
  }

  // _next_recovery_attempt
  function NextRecoveryAttempt(a: RotationAttempt, now: int): Option<RotationAttempt> {
    if !a.IsScheduled() || a.dispatchCount >= a.cap || DeadlinePassed(a.deadline, now) then None
    else
      var lane := a.continuation.value.lane;
      if a.LaneCount(lane) < LaneLimit(lane) then Some(Spent(a, lane)) else None
  }

  // The stop record of _recover_unknown: it leaves next_attempt_at alone.
  function StopRecord(a: RotationAttempt): RotationAttempt {
    WithoutOwner(a).(continuation := Some(Stopped),
                     stopReason := if a.stopReason.Some? && a.stopReason.value != "" then a.stopReason
                                   else Some(BUDGET_EXHAUSTED))
  }

  function AuthorizationOf(next: RotationAttempt, lane: Lane, now: int): RecoveryAuthorization {
    RecoveryAuthorization(lane, next.dispatchCount, next.safeRetries, next.validationRetries, next.ambiguityReplays,
                          next.cap, !DeadlinePassed(next.deadline, now), SecondsUntil(next.nextAttemptAt, now) == 0)
  }

  // What every dispatch the coordinator journals has spent: one first request plus
  // one unit per recovery.
  predicate Funded(a: RotationAttempt) {
    AttemptIsValid(a) && a.dispatchCount == 1 + a.Retries()
  }

  // The pure guard accepts what the ledger hands out exactly when the ledger is
  // funded, whatever the time, lane and deadline, so a funded one never raises.
  lemma BudgetAndGuardAgree(a: RotationAttempt, now: int)
    requires AttemptIsValid(a) && NextRecoveryAttempt(a, now).Some?
    requires SecondsUntil(a.nextAttemptAt, now) == 0
    ensures var next := NextRecoveryAttempt(a, now).value;
            RecoveryDispatchIsAuthorized(AuthorizationOf(next, a.continuation.value.lane, now)) <==> Funded(a)
  {
  }

  // Each recovery spends one unit of the total cap and one of its own lane and moves
  // no deadline, so cap - dispatchCount bounds every chain of recoveries.
  lemma RecoverySpendsTheCap(a: RotationAttempt, now: int)
    requires Funded(a) && NextRecoveryAttempt(a, now).Some?
    ensures var next := NextRecoveryAttempt(a, now).value;
            && Funded(next)
            && 0 <= next.cap - next.dispatchCount < a.cap - a.dispatchCount
            && next.kind == Recovery(a.continuation.value.lane)
            && next.deadline == a.deadline && next.deadline.Some? && now < next.deadline.value
            && (forall lane: Lane ::
                  next.LaneCount(lane) == a.LaneCount(lane) + (if next.kind == Recovery(lane) then 1 else 0))
  {
  }

  // A lane stays open until its limit, the cap or the deadline closes it; nothing else does.
  lemma NextAttemptExistsExactlyWhen(a: RotationAttempt, now: int)
    ensures NextRecoveryAttempt(a, now).Some? <==>
            a.IsScheduled() && ContinuationAvailable(a, a.continuation.value.lane)
            && a.deadline.Some? && now < a.deadline.value
  {
  }

  // Scheduling a lane either stops for good or opens the window [next, deadline):
  // inside it the lane is dispatchable, outside it is not.
  lemma ScheduledWindow(a: RotationAttempt, lane: Lane, freshDeadline: int, now: int, later: int)
    requires Funded(a) && WithContinuation(a, lane, freshDeadline, now).IsScheduled()
    ensures var s := WithContinuation(a, lane, freshDeadline, now);
            && s.nextAttemptAt == Some(now + LaneDelay(lane))
            && s.nextAttemptAt.value <= s.deadline.value
            && (NextRecoveryAttempt(s, later).Some? && SecondsUntil(s.nextAttemptAt, later) == 0
                <==> s.nextAttemptAt.value <= later < s.deadline.value)
  {
    NextAttemptExistsExactlyWhen(WithContinuation(a, lane, freshDeadline, now), later);
  }

  // A recovery is scheduled exactly when the total and its lane have a dispatch left and
  // its delay, of ten seconds for a safe retry and of thirty otherwise, ends by the deadline;
  // if not, the attempt is stopped for the reason that says which.
  lemma SchedulesExactlyWhen(a: RotationAttempt, lane: Lane, freshDeadline: int, now: int)
    ensures var s := WithContinuation(a, lane, freshDeadline, now);
            var used := match lane case SafeRetry => a.safeRetries case ValidationRecovery => a.validationRetries
                                   case AmbiguityReplay => a.ambiguityReplays;
            var available := a.dispatchCount < a.cap && used < (if lane.SafeRetry? then 4 else 1);
            var delay := if lane.SafeRetry? then 10 else 30;
            var deadline := if a.deadline.Some? then a.deadline.value else freshDeadline;
            && s.deadline == Some(deadline)
            && s.ownerBootId.None? && s.ownerPid.None? && s.ownerStartTicks.None?
            && (available && now + delay <= deadline ==>
                  s.continuation == Some(Scheduled(lane)) && s.nextAttemptAt == Some(now + delay) && s.stopReason.None?)
            && (!(available && now + delay <= deadline) ==>
                  && s.continuation == Some(Stopped) && s.nextAttemptAt.None?
                  && s.stopReason == Some(if available then "recovery-deadline-exhausted"
                                          else "recovery-budget-exhausted"))
  {
  }

  lemma SchedulingKeepsTheBudget(a: RotationAttempt, lane: Lane, freshDeadline: int, now: int)
    ensures var s := WithContinuation(a, lane, freshDeadline, now);
            && s.dispatchCount == a.dispatchCount && s.cap == a.cap && s.kind == a.kind
            && s.safeRetries == a.safeRetries && s.validationRetries == a.validationRetries
            && s.ambiguityReplays == a.ambiguityReplays
            && s.deadline == Some(if a.deadline.Some? then a.deadline.value else freshDeadline)
            && (s.IsScheduled() || s.IsStopped())
            && (s.IsScheduled() ==> s.continuation == Some(Scheduled(lane)) && ContinuationAvailable(s, lane))
  {
  }

  // Every unknown outcome recorded with a valid budget is readable.
  lemma SchedulingIsReadable(a: RotationAttempt, lane: Lane, freshDeadline: int, now: int, source: Revision,
                             reason: string)
    requires AttemptIsValid(a) && source != ""
    ensures Readable(OutcomeUnknown(source, reason), WithContinuation(a, lane, freshDeadline, now))
  {
    assert |BUDGET_EXHAUSTED| > 0 && |DEADLINE_EXHAUSTED| > 0;
  }

  // The stop record is readable exactly when the attempt it stops was not scheduled:
  // stopping a scheduled recovery whose deadline passed writes a corrupt journal.
  lemma StopRecordIsReadableExactlyWhen(state: RotationState, a: RotationAttempt)
    requires Readable(state, a) && state.OutcomeUnknown?
    ensures Readable(state, StopRecord(a)) <==> !a.IsScheduled()
    ensures StopRecord(a).IsStopped() && NextRecoveryAttempt(StopRecord(a), 0).None?
  {
    assert |BUDGET_EXHAUSTED| > 0;
  }
}
