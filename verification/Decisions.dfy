// What the coordinator's operations answer, decided by the disk they find and not by how
// they get there: when a request is sent, when the caller waits, and which credential it is
// given (auth_session/coordinator.py). The plans are proved to answer so from every disk.
module Decisions {
  import opened Wrappers
  import opened StateMachine
  import opened Journal
  import opened Budget
  import opened Protocol
  import opened Plans

  predicate HasCookie(d: Disk) {
    d.auth.Some? && d.auth.value.credential.Cookie?
  }

  // There is no journal, or one that can be read and means something.
  predicate JournalIsUsable(d: Disk, readable: bool) {
    readable && (d.journal == NoJournal || (d.journal.Loads() && !d.journal.state.Ready?))
  }

  // Nothing is known of an exchange with the stored credential: no journal, a reservation
  // that was never sent, or the journal of another revision.
  predicate NothingPending(d: Disk)
    requires HasCookie(d) && JournalIsUsable(d, true)
  {
    var current := d.auth.value.revision;
    || d.journal == NoJournal
    || d.journal.state.Reserved?
    || (d.journal.state.source != current && !(d.journal.state.Rotated? && d.journal.state.successor == current))
  }

  predicate OwnerLives(a: RotationAttempt, alive: RefreshOwner -> bool) {
    && a.ownerBootId.Some? && a.ownerPid.Some? && a.ownerStartTicks.Some?
    && alive(RefreshOwner(a.ownerBootId.value, a.ownerPid.value, a.ownerStartTicks.value))
  }

  // Dispatches are left in the total and in the lane.
  predicate BudgetLeft(a: RotationAttempt, lane: Lane) {
    && a.dispatchCount < a.cap
    && match lane
       case SafeRetry => a.safeRetries < 4
       case ValidationRecovery => a.validationRetries < 1
       case AmbiguityReplay => a.ambiguityReplays < 1
  }

  // A recovery asked for now can still be sent when its delay is over.
  predicate CanBeScheduled(a: RotationAttempt, lane: Lane, now: int) {
    && BudgetLeft(a, lane)
    && (a.deadline.Some? ==> now + (if lane.SafeRetry? then 10 else 30) <= a.deadline.value)
  }

  // The recovery an unknown outcome waits for may still be sent.
  predicate RecoveryIsOpen(a: RotationAttempt, now: int) {
    && a.continuation.Some? && a.continuation.value.Scheduled?
    && BudgetLeft(a, a.continuation.value.lane) && a.deadline.Some? && now < a.deadline.value
  }

  predicate CoolingDown(a: RotationAttempt, now: int) {
    a.nextAttemptAt.Some? && now < a.nextAttemptAt.value
  }

  // Every dispatch counted, out of six, is accounted for by its first request and its lanes.
  predicate CountsAddUp(a: RotationAttempt, lane: Lane) {
    && a.cap == 6 && a.dispatchCount == 1 + a.safeRetries + a.validationRetries + a.ambiguityReplays
    && match lane
       case SafeRetry => a.safeRetries >= 0
       case ValidationRecovery => a.validationRetries >= 0
       case AmbiguityReplay => a.ambiguityReplays >= 0
  }

  // The answer for an unknown outcome of the current revision.
  predicate AnswersUnknown(auth: StoredAuth, a: RotationAttempt, now: int, r: Outcome) {
    if !RecoveryIsOpen(a, now) then r == WaitForRevision(auth.revision)
    else if CoolingDown(a, now) then
      r == RecoveryRequired(auth.revision, a.continuation.value.lane, a.nextAttemptAt.value - now)
    else if CountsAddUp(a, a.continuation.value.lane) then r == Dispatch(auth, Recovery(a.continuation.value.lane))
    else r == InvalidTransition
  }

  // The answer of a preparation whose writes all succeed, for every disk.
  predicate AnswersPreparation(d: Disk, expected: Option<Revision>, now: int, alive: RefreshOwner -> bool,
                               readable: bool, r: Outcome)
  {
    if !HasCookie(d) then r == AuthRequired
    else if !JournalIsUsable(d, readable) then r == StorageError
    else
      var auth := d.auth.value;
      if NothingPending(d) then
        r == if expected in {None, Some(auth.revision)} then Dispatch(auth, Normal) else ReturnAuth(auth)
      else match d.journal.state
        case Rotated(_, cookie, successor) =>
          r == ReturnAuth(if successor == auth.revision then auth else StoredAuth(successor, Cookie(cookie)))
        case Requested(_) =>
          r == (if !OwnerLives(d.journal.attempt, alive) && CanBeScheduled(d.journal.attempt, AmbiguityReplay, now)
                then RecoveryRequired(auth.revision, AmbiguityReplay, 30) else WaitForRevision(auth.revision))
        case OutcomeUnknown(_, _) => AnswersUnknown(auth, d.journal.attempt, now, r)
        case _ => r == WaitForRevision(auth.revision)
  }

  // A request is sent exactly when nothing is pending for the credential and the caller has
  // not been overtaken, or a recovery of its unknown outcome is open, due and accounted for.
  predicate Sends(d: Disk, expected: Option<Revision>, now: int, readable: bool) {
    && HasCookie(d) && JournalIsUsable(d, readable)
    && if NothingPending(d) then expected.None? || expected.value == d.auth.value.revision
       else
         && d.journal.state.OutcomeUnknown? && RecoveryIsOpen(d.journal.attempt, now)
         && !CoolingDown(d.journal.attempt, now)
         && CountsAddUp(d.journal.attempt, d.journal.attempt.continuation.value.lane)
  }

  // ------------------------------------------------------------------- preparation

  lemma UnknownIsAnswered(auth: StoredAuth, state: RotationState, a: RotationAttempt, now: int, owner: RefreshOwner)
    requires state.OutcomeUnknown? && state.source == auth.revision
    ensures AnswersUnknown(auth, a, now, RecoverUnknownPlan(auth, state, a, now, owner).outcome)
  {
    hide StopRecord, Owned;
  }

  // A dead dispatch is replayed once, half a minute later, if its budget and window allow.
  lemma DeadDispatchIsAnswered(auth: StoredAuth, a: RotationAttempt, now: int, owner: RefreshOwner, reason: string)
    ensures var file := UnknownFile(auth.revision, reason, a, now);
            RecoverUnknownPlan(auth, file.state, file.attempt, now, owner).outcome ==
            if CanBeScheduled(a, AmbiguityReplay, now) then RecoveryRequired(auth.revision, AmbiguityReplay, 30)
            else WaitForRevision(auth.revision)
  {
    hide StopRecord, Owned;
  }

  lemma FirstDispatchIsAnswered(s: Snapshot, auth: StoredAuth, expected: Option<Revision>, now: int,
                                owner: RefreshOwner, sink: string -> bool)
    ensures FirstDispatchPlan(s, auth, expected, now, owner, sink).outcome ==
            if expected in {None, Some(auth.revision)} then Dispatch(auth, Normal) else ReturnAuth(auth)
  {
    hide DrainPlan, Owned;
  }

  // Preparation answers by the disk alone, whatever the sink accepts and whoever prepares.
  lemma PreparationIsAnswered(s: Snapshot, expected: Option<Revision>, now: int, owner: RefreshOwner,
                              alive: RefreshOwner -> bool, sink: string -> bool, readable: bool)
    ensures var r := PreparePlan(s, expected, now, owner, alive, sink, readable).outcome;
            && AnswersPreparation(s.disk, expected, now, alive, readable, r)
            && (r.Dispatch? <==> Sends(s.disk, expected, now, readable))
            && (r.Dispatch? ==> s.disk.auth == Some(r.auth))
  {
    hide Perform, RecordPlan, Readable, FirstDispatchPlan, RecoverUnknownPlan, DiscardPlan, DeletePlan, InstallPlan,
         MarkUnknownPlan, RecoveryIsOpen, CanBeScheduled;
    var d := s.disk;
    if HasCookie(d) && JournalIsUsable(d, readable) {
      var auth, j := d.auth.value, d.journal;
      if j == NoJournal {
        FirstDispatchIsAnswered(s, auth, expected, now, owner, sink);
      } else {
        var first := if d.Current(j.state.source) then DeletePlan(d) else DiscardPlan(d, j.state, j.enqueued);
        FirstDispatchIsAnswered(Perform(s, first), auth, expected, now, owner, sink);
        if d.Current(j.state.source) {
          if j.state.OutcomeUnknown? {
            UnknownIsAnswered(auth, j.state, j.attempt, now, owner);
          }
          if j.state.Requested? {
            DeadDispatchIsAnswered(auth, j.attempt, now, owner, INTERRUPTED);
          }
        }
      }
    }
  }

  // -------------------------------------------------------- what a dispatch announces

  // The attempt a first request of the revision is sent under.
  predicate IsFirstAttempt(a: RotationAttempt, source: Revision, now: int) {
    && a.rotationId == source && a.kind == Normal && a.dispatchCount == 1 && a.cap == 6
    && a.safeRetries == 0 && a.validationRetries == 0 && a.ambiguityReplays == 0
    && a.deadline == Some(now + 600) && a.continuation.None? && a.nextAttemptAt.None? && a.stopReason.None?
  }

  // The attempt of a recovery: one more dispatch, in the lane that was waited for, under the
  // same cap and the same deadline.
  predicate IsNextAttempt(a: RotationAttempt, before: RotationAttempt) {
    && before.continuation.Some? && before.continuation.value.Scheduled?
    && a.rotationId == before.rotationId && a.kind == Recovery(before.continuation.value.lane)
    && a.dispatchCount == before.dispatchCount + 1 && a.cap == before.cap && a.deadline == before.deadline
    && a.safeRetries == before.safeRetries + (if a.kind.lane.SafeRetry? then 1 else 0)
    && a.validationRetries == before.validationRetries + (if a.kind.lane.ValidationRecovery? then 1 else 0)
    && a.ambiguityReplays == before.ambiguityReplays + (if a.kind.lane.AmbiguityReplay? then 1 else 0)
    && a.continuation.None? && a.nextAttemptAt.None? && a.stopReason.None?
  }

  // ------------------------------------------------------------------ the commit

  // The journal that is there is about the revision the answer is for.
  predicate JournalIsOf(d: Disk, source: Revision, readable: bool) {
    readable && d.journal.Loads() && !d.journal.state.Ready? && d.journal.state.source == source
  }

  // The answer of a commit: a credential replaced meanwhile is given as it is; a success
  // gives the successor, unless no cookie is there to be replaced; a refusal ends the
  // revision, and an unclear answer does when no recovery in its lane can be scheduled.
  predicate AnswersCommit(d: Disk, source: Revision, answer: Answer, now: int, readable: bool, r: Outcome) {
    if d.auth.None? then r == AuthRequired
    else if d.auth.value.revision != source then r == ReturnAuth(d.auth.value)
    else match answer
      case Succeeded(cookie, successor) =>
        r == ReturnAuth(if HasCookie(d) then StoredAuth(successor, Cookie(cookie)) else d.auth.value)
      case Refused => r == TerminalRevisionRequired(source)
      case Unclear(lane) =>
        r == if !JournalIsOf(d, source, readable) || CanBeScheduled(d.journal.attempt, lane, now)
             then RecoveryRequired(source, lane, 0) else TerminalRevisionRequired(source)
  }

  lemma CommitIsAnswered(s: Snapshot, source: Revision, answer: Answer, now: int, reason: string,
                         responseClass: Option<string>, readable: bool, sink: string -> bool)
    ensures AnswersCommit(s.disk, source, answer, now, readable,
                          CommitPlan(s, source, answer, now, reason, responseClass, readable, sink).outcome)
  {
    hide Perform, RecordPlan, Readable, InstallPlan, WithoutOwner;
  }

  // The answer of a retained successor's projection.
  predicate AnswersProjection(d: Disk, kept: Successor, r: Outcome) {
    if d.auth.None? then r == Superseded(None)
    else if d.auth.value.revision == kept.revision then r == ReturnAuth(d.auth.value)
    else if d.auth.value.revision == kept.source && HasCookie(d) then
      r == ReturnAuth(StoredAuth(kept.revision, Cookie(kept.cookie)))
    else r == Superseded(Some(d.auth.value.revision))
  }

  lemma ProjectionIsAnswered(s: Snapshot, kept: Successor, readable: bool, sink: string -> bool)
    ensures AnswersProjection(s.disk, kept, ProjectPlan(s, kept, readable, sink).outcome)
  {
    hide Perform, RecordPlan, InstallPlan, AttemptFor;
  }
}
