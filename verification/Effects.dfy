// What the coordinator's operations leave behind once all their writes succeeded, stated over
// the disk they found: the credential, the journal, and which outcomes are waiting for the
// sink or were taken by it (auth_session/coordinator.py).
module Effects {
  import opened Wrappers
  import opened StateMachine
  import opened Journal
  import opened Outbox
  import opened Budget
  import opened Protocol
  import opened Plans
  import opened Decisions
  import opened StartupRecovery

  predicate SameOutcomes(s: Snapshot, t: Snapshot) {
    Keys(t.disk.outbox) == Keys(s.disk.outbox) && t.accepted == s.accepted
  }

  // The keys on their way to the sink were offered: what it takes is taken, the rest waits.
  ghost predicate Offered(s: Snapshot, waiting: set<string>, t: Snapshot, sink: string -> bool) {
    && (forall key :: key in Keys(t.disk.outbox) <==> key in waiting && !sink(key))
    && (forall key :: key in t.accepted <==> key in s.accepted || (key in waiting && sink(key)))
  }

  // The journal a recorded outcome leaves: none, for a rotation whose record left the outbox.
  predicate RecordedIn(j: JournalFile, state: RotationState, attempt: RotationAttempt, waits: bool) {
    j == if state.Rotated? && !waits then NoJournal else Stored(state, true, attempt)
  }

  // ------------------------------------------------------------------- recording

  lemma EnqueueLeaves(s: Snapshot, state: RotationState)
    requires state.Terminal()
    ensures var t := Perform(s, EnqueuePlan(s.disk, state));
            && t.disk.auth == s.disk.auth && t.disk.journal == s.disk.journal && t.accepted == s.accepted
            && Keys(t.disk.outbox) == Keys(s.disk.outbox) + {KeyOf(state)}
  {
    hide Perform, Keys, EventKey;
    KeysAfterEnqueue(s.disk.outbox, RecordOf(state));
    PerformNothing(s);
    PerformOne(s, PutOutbox(Enqueued(s.disk.outbox, RecordOf(state))));
  }

  lemma MarkLeaves(s: Snapshot, state: RotationState, attempt: RotationAttempt)
    requires state.Terminal()
    ensures var t := Perform(s, EnqueuePlan(s.disk, state) + [PutJournal(Stored(state, true, attempt))]);
            && t.disk.auth == s.disk.auth && t.disk.journal == Stored(state, true, attempt) && t.accepted == s.accepted
            && Keys(t.disk.outbox) == Keys(s.disk.outbox) + {KeyOf(state)}
  {
    hide Perform, Keys, EventKey, EnqueuePlan;
    var file := PutJournal(Stored(state, true, attempt));
    EnqueueLeaves(s, state);
    PerformAppend(s, EnqueuePlan(s.disk, state), [file]);
    PerformOne(Perform(s, EnqueuePlan(s.disk, state)), file);
  }

  lemma DeleteLeaves(s: Snapshot)
    ensures Perform(s, DeletePlan(s.disk)) == s.(disk := s.disk.(journal := NoJournal))
  {
    hide Perform;
    PerformNothing(s);
    PerformOne(s, PutJournal(NoJournal));
  }

  // A new outcome is put before the sink with everything that waited, and the journal says
  // that it was; a rotation's journal goes once the sink has its record.
  lemma RecordLeaves(s: Snapshot, state: RotationState, attempt: RotationAttempt, sink: string -> bool)
    requires state.Terminal()
    ensures var t := Perform(s, RecordPlan(s, state, false, attempt, sink));
            && t.disk.auth == s.disk.auth && RecordedIn(t.disk.journal, state, attempt, !sink(KeyOf(state)))
            && Offered(s, Keys(s.disk.outbox) + {KeyOf(state)}, t, sink)
  {
    hide Perform, Keys, EventKey, EnqueuePlan, DrainPlan, DeletePlan;
    var marking := EnqueuePlan(s.disk, state) + [PutJournal(Stored(state, true, attempt))];
    MarkLeaves(s, state, attempt);
    OfferLeaves(s, marking, state, sink);
    var t := Perform(s, RecordPlan(s, state, false, attempt, sink));
    assert t.disk.auth == s.disk.auth;
  }

  // An outcome that was enqueued before is not enqueued again.
  lemma RecordAgainLeaves(s: Snapshot, state: RotationState, attempt: RotationAttempt, sink: string -> bool)
    requires state.Terminal()
    ensures var t := Perform(s, RecordPlan(s, state, true, attempt, sink));
            var waits := KeyOf(state) in Keys(s.disk.outbox) && !sink(KeyOf(state));
            && t.disk.auth == s.disk.auth && Offered(s, Keys(s.disk.outbox), t, sink)
            && t.disk.journal == if state.Rotated? && !waits then NoJournal else s.disk.journal
  {
    hide Perform, Keys, EventKey, EnqueuePlan, DrainPlan, DeletePlan;
    PerformNothing(s);
    OfferLeaves(s, [], state, sink);
  }

  lemma OfferLeaves(s: Snapshot, marking: Plan, state: RotationState, sink: string -> bool)
    requires state.Terminal() && Perform(s, marking).accepted == s.accepted
    ensures var marked := Perform(s, marking);
            var draining := DrainPlan(marked.disk.outbox, marked.disk.outbox, sink);
            var drained := Perform(marked, draining);
            var deleting := if state.Rotated? && KeyOf(state) !in Keys(drained.disk.outbox)
                            then DeletePlan(drained.disk) else [];
            var t := Perform(s, marking + draining + deleting);
            var waits := KeyOf(state) in Keys(marked.disk.outbox) && !sink(KeyOf(state));
            && t.disk.auth == marked.disk.auth && Offered(s, Keys(marked.disk.outbox), t, sink)
            && t.disk.journal == if state.Rotated? && !waits then NoJournal else marked.disk.journal
  {
    hide Perform, Keys, EventKey, DrainPlan, DeletePlan;
    var marked := Perform(s, marking);
    var draining := DrainPlan(marked.disk.outbox, marked.disk.outbox, sink);
    var drained := Perform(marked, draining);
    DrainLeaves(marked, marked.disk.outbox, sink);
    PerformAppend(s, marking, draining);
    if state.Rotated? && KeyOf(state) !in Keys(drained.disk.outbox) {
      DeleteLeaves(drained);
      PerformAppend(s, marking + draining, DeletePlan(drained.disk));
    } else {
      PerformNothing(drained);
      PerformAppend(s, marking + draining, []);
    }
  }

  // The journal of another revision goes, and an outcome it had not handed over waits.
  lemma DiscardLeaves(s: Snapshot, state: RotationState, enqueued: bool)
    ensures var t := Perform(s, DiscardPlan(s.disk, state, enqueued));
            && t.disk.auth == s.disk.auth && t.disk.journal == NoJournal && t.accepted == s.accepted
            && Keys(t.disk.outbox) ==
               Keys(s.disk.outbox) + (if state.Terminal() && !enqueued then {KeyOf(state)} else {})
  {
    hide Perform, Keys, EventKey, EnqueuePlan;
    if state.Terminal() && !enqueued {
      EnqueueLeaves(s, state);
      var t := Perform(s, EnqueuePlan(s.disk, state));
      DeleteLeaves(t);
      PerformAppend(s, EnqueuePlan(s.disk, state), DeletePlan(t.disk));
    } else {
      assert [] + DeletePlan(s.disk) == DeletePlan(s.disk);
      DeleteLeaves(s);
    }
  }

  // An import leaves the imported credential and no journal; an outcome that could be read
  // in the journal and was not handed over waits for the sink.
  lemma ImportLeaves(s: Snapshot, imported: StoredAuth, readable: bool)
    ensures var t, j := Perform(s, ImportPlan(s.disk, imported, readable)), s.disk.journal;
            && t.disk.auth == Some(imported) && t.disk.journal == NoJournal && t.accepted == s.accepted
            && Keys(t.disk.outbox) ==
               Keys(s.disk.outbox)
               + (if readable && j.Loads() && j.state.Terminal() && !j.enqueued then {KeyOf(j.state)} else {})
  {
    hide Perform, Keys, EventKey, EnqueuePlan, Readable;
    var j, write := s.disk.journal, PutAuth(imported);
    var waits := readable && j.Loads() && j.state.Terminal() && !j.enqueued;
    var enqueuing := if waits then EnqueuePlan(s.disk, j.state) else [];
    var v := s.After(write);
    PerformOne(s, write);
    PerformNothing(v);
    PerformAppend(s, [write], enqueuing);
    if waits {
      EnqueueIsLocal(v.disk, s.disk, j.state);
      EnqueueLeaves(v, j.state);
    }
    var t := Perform(v, enqueuing);
    DeleteLeaves(t);
    PerformAppend(s, [write] + enqueuing, DeletePlan(t.disk));
    assert DeletePlan(t.disk) == DeletePlan(s.disk);
  }

  lemma EnqueueIsLocal(d: Disk, e: Disk, state: RotationState)
    requires state.Terminal() && d.outbox == e.outbox
    ensures EnqueuePlan(d, state) == EnqueuePlan(e, state)
  {
  }

  // ----------------------------------------------------------------- installation

  // A successor replaces a cookie, whatever its revision, and nothing else; its outcome is
  // then recorded.
  lemma InstallLeaves(s: Snapshot, state: RotationState, attempt: RotationAttempt, sink: string -> bool)
    requires state.Rotated? && s.disk.auth.Some?
    ensures var t := Perform(s, InstallPlan(s, state, false, attempt, sink));
            if s.disk.auth.value.credential.Cookie? then
              && t.disk.auth == Some(StoredAuth(state.successor, Cookie(state.cookie)))
              && RecordedIn(t.disk.journal, state, attempt, !sink(KeyOf(state)))
              && Offered(s, Keys(s.disk.outbox) + {KeyOf(state)}, t, sink)
            else t == s
  {
    hide Perform, Keys, EventKey, RecordPlan;
    if s.disk.auth.value.credential.Cookie? {
      var write := PutAuth(InstalledAuth(state));
      PerformOne(s, write);
      PerformAppend(s, [write], RecordPlan(s.After(write), state, false, attempt, sink));
      RecordLeaves(s.After(write), state, attempt, sink);
    } else {
      PerformNothing(s);
    }
  }

  // ------------------------------------------------------------------ the commit

  // The attempt an answer is recorded under: the journal's, or the default when the journal
  // is not about this revision; a recorded answer has no owner any more.
  predicate CarriesAttempt(a: RotationAttempt, d: Disk, source: Revision, readable: bool) {
    var found := if JournalIsOf(d, source, readable) then d.journal.attempt
                 else RotationAttempt(source, Normal, 1, 0, 0, 0, None, None, None, None, None, None, 6, None, None);
    && a.rotationId == found.rotationId && a.kind == found.kind && a.cap == found.cap
    && a.dispatchCount == found.dispatchCount && a.safeRetries == found.safeRetries
    && a.validationRetries == found.validationRetries && a.ambiguityReplays == found.ambiguityReplays
    && (found.deadline.Some? ==> a.deadline == found.deadline)
    && a.ownerBootId.None? && a.ownerPid.None? && a.ownerStartTicks.None?
  }

  // What a commit leaves for an answer to the stored credential's own exchange.
  ghost predicate CommitLeaves(s: Snapshot, source: Revision, answer: Answer, now: int, reason: string,
                         responseClass: Option<string>, readable: bool, sink: string -> bool, t: Snapshot)
  {
    var j := t.disk.journal;
    match answer
    case Succeeded(cookie, successor) =>
      var key := "auth-rotation:" + source + ":rotated";
      if HasCookie(s.disk) then
        && t.disk.auth == Some(StoredAuth(successor, Cookie(cookie)))
        && Offered(s, Keys(s.disk.outbox) + {key}, t, sink)
        && (if sink(key) then j == NoJournal
            else j.Stored? && j.state == Rotated(source, cookie, successor) && j.enqueued
                 && CarriesAttempt(j.attempt, s.disk, source, readable))
      else
        && t.disk.auth == s.disk.auth && SameOutcomes(s, t)
        && j.Stored? && j.state == Rotated(source, cookie, successor) && !j.enqueued
    case Refused =>
      && t.disk.auth == s.disk.auth
      && Offered(s, Keys(s.disk.outbox) + {"auth-rotation:" + source + ":rejected"}, t, sink)
      && j.Stored? && j.state == Rejected(source, reason) && j.enqueued
      && CarriesAttempt(j.attempt, s.disk, source, readable)
    case Unclear(lane) =>
      && t.disk.auth == s.disk.auth
      && Offered(s, Keys(s.disk.outbox) + {"auth-rotation:" + source + ":outcome_unknown"}, t, sink)
      && j.Stored? && j.state == OutcomeUnknown(source, reason) && j.enqueued
      && CarriesAttempt(j.attempt, s.disk, source, readable) && j.attempt.responseClass == responseClass
      && (j.attempt.continuation == Some(Scheduled(lane)) || j.attempt.continuation == Some(Stopped))
      && (j.attempt.continuation == Some(Scheduled(lane)) ==>
            j.attempt.nextAttemptAt == Some(now + (if lane.SafeRetry? then 10 else 30)))
      && j.attempt.deadline.Some?
      && (j.attempt.deadline == Some(now + 600)
          || (JournalIsOf(s.disk, source, readable) && j.attempt.deadline == s.disk.journal.attempt.deadline))
  }

  lemma CommittedFile(d: Disk, source: Revision, answer: Answer, now: int, reason: string,
                      responseClass: Option<string>, readable: bool)
    ensures var file := CommitFile(d.journal, source, answer, now, reason, responseClass, readable);
            && file.Stored? && !file.enqueued && file.state.Terminal() && file.state.source == source
            && CarriesAttempt(file.attempt, d, source, readable)
            && match answer
               case Succeeded(cookie, successor) => file.state == Rotated(source, cookie, successor)
               case Refused => file.state == Rejected(source, reason)
               case Unclear(lane) =>
                 var a := file.attempt;
                 && file.state == OutcomeUnknown(source, reason) && a.responseClass == responseClass
                 && (a.continuation == Some(Scheduled(lane)) || a.continuation == Some(Stopped))
                 && (a.continuation == Some(Scheduled(lane)) ==>
                       a.nextAttemptAt == Some(now + (if lane.SafeRetry? then 10 else 30)))
                 && a.deadline.Some?
                 && (a.deadline == Some(now + 600)
                     || (JournalIsOf(d, source, readable) && a.deadline == d.journal.attempt.deadline))
  {
    hide Readable;
  }

  lemma KeysByName(state: RotationState)
    requires state.Terminal()
    ensures KeyOf(state) == "auth-rotation:" + state.source
                            + (if state.Rotated? then ":rotated" else if state.Rejected? then ":rejected"
                               else ":outcome_unknown")
  {
    var prefix := EVENT_KEY_PREFIX + state.source;
    assert prefix + ":" + OutcomeName(OutcomeOf(state)) == prefix + (":" + OutcomeName(OutcomeOf(state)));
    assert ":" + "rotated" == ":rotated" && ":" + "rejected" == ":rejected";
    assert ":" + "outcome_unknown" == ":outcome_unknown";
  }

  lemma CommitIsDone(s: Snapshot, source: Revision, answer: Answer, now: int, reason: string,
                     responseClass: Option<string>, readable: bool, sink: string -> bool)
    ensures var t := Perform(s, CommitPlan(s, source, answer, now, reason, responseClass, readable, sink).plan);
            if s.disk.Current(source)
            then CommitLeaves(s, source, answer, now, reason, responseClass, readable, sink, t) else t == s
  {
    hide Perform, Keys, EventKey, RecordPlan, InstallPlan, CommitFile, Readable, CarriesAttempt, JournalIsOf;
    if !s.disk.Current(source) {
      PerformNothing(s);
    } else {
      var file := CommitFile(s.disk.journal, source, answer, now, reason, responseClass, readable);
      CommittedFile(s.disk, source, answer, now, reason, responseClass, readable);
      KeysByName(file.state);
      var write := PutJournal(file);
      var v := s.After(write);
      PerformOne(s, write);
      if answer.Succeeded? {
        InstallLeaves(v, file.state, file.attempt, sink);
        PerformAppend(s, [write], InstallPlan(v, file.state, false, file.attempt, sink));
        assert [write] + [] == [write];
      } else {
        RecordLeaves(v, file.state, file.attempt, sink);
        PerformAppend(s, [write], RecordPlan(v, file.state, false, file.attempt, sink));
      }
    }
  }

  // -------------------------------------------------------------- the other operations

  lemma RecordKeepsAuth(s: Snapshot, state: RotationState, enqueued: bool, attempt: RotationAttempt,
                        sink: string -> bool)
    requires state.Terminal()
    ensures Perform(s, RecordPlan(s, state, enqueued, attempt, sink)).disk.auth == s.disk.auth
  {
    hide Perform, RecordPlan, Keys, EventKey;
    if enqueued { RecordAgainLeaves(s, state, attempt, sink); } else { RecordLeaves(s, state, attempt, sink); }
  }

  lemma InstallSetsAuth(s: Snapshot, state: RotationState, enqueued: bool, attempt: RotationAttempt,
                        sink: string -> bool)
    requires state.Rotated? && s.disk.auth.Some? && s.disk.auth.value.credential.Cookie?
    ensures Perform(s, InstallPlan(s, state, enqueued, attempt, sink)).disk.auth ==
            Some(StoredAuth(state.successor, Cookie(state.cookie)))
  {
    hide Perform, RecordPlan;
    var write := PutAuth(InstalledAuth(state));
    PerformOne(s, write);
    PerformAppend(s, [write], RecordPlan(s.After(write), state, enqueued, attempt, sink));
    RecordKeepsAuth(s.After(write), state, enqueued, attempt, sink);
  }

  lemma FirstDispatchKeepsAuth(s: Snapshot, auth: StoredAuth, expected: Option<Revision>, now: int,
                               owner: RefreshOwner, sink: string -> bool)
    ensures var p := FirstDispatchPlan(s, auth, expected, now, owner, sink);
            p.outcome.ReturnAuth? ==> p.outcome.auth == auth && Perform(s, p.plan).disk.auth == s.disk.auth
  {
    hide Perform, DrainPlan;
    var draining := DrainPlan(s.disk.outbox, s.disk.outbox, sink);
    DrainLeaves(s, s.disk.outbox, sink);
    assert draining + [] == draining;
  }

  // A credential an operation returns is the one that is then stored.
  lemma PreparationReturnsTheStored(s: Snapshot, expected: Option<Revision>, now: int, owner: RefreshOwner,
                                    alive: RefreshOwner -> bool, sink: string -> bool, readable: bool)
    ensures var p := PreparePlan(s, expected, now, owner, alive, sink, readable);
            p.outcome.ReturnAuth? ==> Perform(s, p.plan).disk.auth == Some(p.outcome.auth)
  {
    hide Perform, RecordPlan, Readable, FirstDispatchPlan, RecoverUnknownPlan, DiscardPlan, DeletePlan, InstallPlan,
         MarkUnknownPlan;
    var d, j := s.disk, s.disk.journal;
    var p := PreparePlan(s, expected, now, owner, alive, sink, readable);
    PreparationIsAnswered(s, expected, now, owner, alive, sink, readable);
    if p.outcome.ReturnAuth? {
      var auth := d.auth.value;
      if j == NoJournal {
        FirstDispatchKeepsAuth(s, auth, expected, now, owner, sink);
      } else if j.state.Rotated? && d.Current(j.state.successor) {
        RecordKeepsAuth(s, j.state, j.enqueued, j.attempt, sink);
      } else if j.state.Rotated? && d.Current(j.state.source) {
        InstallSetsAuth(s, j.state, j.enqueued, j.attempt, sink);
      } else {
        var first := if d.Current(j.state.source) then DeletePlan(d) else DiscardPlan(d, j.state, j.enqueued);
        DeleteLeaves(s);
        DiscardLeaves(s, j.state, j.enqueued);
        var v := Perform(s, first);
        FirstDispatchKeepsAuth(v, auth, expected, now, owner, sink);
        PerformAppend(s, first, FirstDispatchPlan(v, auth, expected, now, owner, sink).plan);
      }
    }
  }

  // A projection of a retained successor installs it, or finds it installed, or was
  // superseded; what it finds or installs is recorded.
  lemma ProjectionLeaves(s: Snapshot, kept: Successor, readable: bool, sink: string -> bool)
    ensures var p := ProjectPlan(s, kept, readable, sink);
            var t := Perform(s, p.plan);
            && (p.outcome.ReturnAuth? ==>
                  && t.disk.auth == Some(p.outcome.auth)
                  && Offered(s, Keys(s.disk.outbox) + {"auth-rotation:" + kept.source + ":rotated"}, t, sink)
                  && (sink("auth-rotation:" + kept.source + ":rotated") ==> t.disk.journal == NoJournal))
            && (p.outcome.Superseded? ==> t.disk.auth == s.disk.auth && SameOutcomes(s, t))
  {
    hide Perform, RecordPlan, InstallPlan, AttemptFor, Keys, EventKey;
    var attempt := WithoutOwner(AttemptFor(s.disk.journal, kept.source, readable));
    KeysByName(kept.State());
    if s.disk.Current(kept.revision) {
      RecordLeaves(s, kept.State(), attempt, sink);
    } else if !s.disk.Current(kept.source) {
      PerformNothing(s);
    } else {
      var write := PutJournal(Stored(kept.State(), false, attempt));
      var v := s.After(write);
      PerformOne(s, write);
      InstallLeaves(v, kept.State(), attempt, sink);
      PerformAppend(s, [write], InstallPlan(v, kept.State(), false, attempt, sink));
      assert [write] + [] == [write];
    }
  }

  lemma MarkUnknownLeaves(s: Snapshot, file: JournalFile, sink: string -> bool)
    requires file.Stored? && file.state.OutcomeUnknown?
    ensures var t := Perform(s, MarkUnknownPlan(s, file, sink));
            && t.disk.auth == s.disk.auth && t.disk.journal == Stored(file.state, true, file.attempt)
            && Offered(s, Keys(s.disk.outbox) + {"auth-rotation:" + file.state.source + ":outcome_unknown"}, t, sink)
  {
    hide Perform, RecordPlan, Keys, EventKey;
    var write := PutJournal(file);
    var v := s.After(write);
    KeysByName(file.state);
    PerformOne(s, write);
    RecordLeaves(v, file.state, file.attempt, sink);
    PerformAppend(s, [write], RecordPlan(v, file.state, false, file.attempt, sink));
  }

  // A recovery of an unknown outcome nobody waited for yet: it is waited for, or stopped.
  lemma FreshRecoveryLeaves(u: Snapshot, auth: StoredAuth, file: JournalFile, found: RotationAttempt, now: int,
                            owner: RefreshOwner)
    requires file == UnknownFile(auth.revision, INTERRUPTED, found, now)
    requires u.disk.journal == Stored(file.state, true, file.attempt)
    ensures var t := Perform(u, RecoverUnknownPlan(auth, file.state, file.attempt, now, owner).plan);
            var j := t.disk.journal;
            && t == u.(disk := u.disk.(journal := j)) && j.Stored? && j.state == file.state
            && (if CanBeScheduled(found, AmbiguityReplay, now) then
                  && j.enqueued && j.attempt.continuation == Some(Scheduled(AmbiguityReplay))
                  && j.attempt.nextAttemptAt == Some(now + 30)
                else !j.enqueued && j.attempt.continuation == Some(Stopped))
  {
    hide Perform, WithContinuation, NextRecoveryAttempt;
    SchedulesExactlyWhen(found, AmbiguityReplay, now + RECOVERY_WINDOW, now);
    NextAttemptExistsExactlyWhen(file.attempt, now);
    DeadDispatchIsAnswered(auth, found, now, owner, INTERRUPTED);
    PerformNothing(u);
    PerformOne(u, PutJournal(Stored(file.state, false, StopRecord(file.attempt))));
  }

  // A recovery asked for by an interrupted request is written down: the outcome is unknown,
  // one replay is scheduled in half a minute, and the sink was offered the outcome.
  lemma InterruptionIsWritten(s: Snapshot, expected: Option<Revision>, now: int, owner: RefreshOwner,
                              alive: RefreshOwner -> bool, sink: string -> bool)
    requires HasCookie(s.disk) && s.disk.journal.Loads() && s.disk.journal.state.Requested?
    requires s.disk.Current(s.disk.journal.state.source) && !OwnerLives(s.disk.journal.attempt, alive)
    ensures var source := s.disk.journal.state.source;
            var p := PreparePlan(s, expected, now, owner, alive, sink, true);
            var t := Perform(s, p.plan);
            var j := t.disk.journal;
            && t.disk.auth == s.disk.auth
            && Offered(s, Keys(s.disk.outbox) + {"auth-rotation:" + source + ":outcome_unknown"}, t, sink)
            && j.Stored? && j.state == OutcomeUnknown(source, "interrupted after refresh dispatch")
            && (if CanBeScheduled(s.disk.journal.attempt, AmbiguityReplay, now) then
                  && j.enqueued && j.attempt.continuation == Some(Scheduled(AmbiguityReplay))
                  && j.attempt.nextAttemptAt == Some(now + 30)
                else !j.enqueued && j.attempt.continuation == Some(Stopped))
  {
    hide Perform, RecordPlan, Readable, Keys, EventKey, RecoverUnknownPlan, MarkUnknownPlan, UnknownFile,
         CanBeScheduled;
    var auth, j := s.disk.auth.value, s.disk.journal;
    var file := UnknownFile(j.state.source, INTERRUPTED, j.attempt, now);
    assert file.Stored? && file.state == OutcomeUnknown(j.state.source, INTERRUPTED) by { UnknownIsMarked(j, now); }
    var marking := MarkUnknownPlan(s, file, sink);
    MarkUnknownLeaves(s, file, sink);
    FreshRecoveryLeaves(Perform(s, marking), auth, file, j.attempt, now, owner);
    PerformAppend(s, marking, RecoverUnknownPlan(auth, file.state, file.attempt, now, owner).plan);
  }

  lemma UnknownIsMarked(j: JournalFile, now: int)
    requires j.HasContent()
    ensures var file := UnknownFile(j.state.source, INTERRUPTED, j.attempt, now);
            file.Stored? && file.state == OutcomeUnknown(j.state.source, INTERRUPTED)
  {
  }

  // An unknown outcome whose recovery is closed is written down as stopped for good: with
  // the reason it was stopped for, or else for want of budget.
  lemma ClosedRecoveryIsWritten(s: Snapshot, expected: Option<Revision>, now: int, owner: RefreshOwner,
                                alive: RefreshOwner -> bool, sink: string -> bool)
    requires HasCookie(s.disk) && s.disk.journal.Loads() && s.disk.journal.state.OutcomeUnknown?
    requires s.disk.Current(s.disk.journal.state.source) && !RecoveryIsOpen(s.disk.journal.attempt, now)
    ensures var found := s.disk.journal;
            var t := Perform(s, PreparePlan(s, expected, now, owner, alive, sink, true).plan);
            var j := t.disk.journal;
            && t.disk.auth == s.disk.auth
            && j.Stored? && j.state == found.state && j.attempt.continuation == Some(Stopped)
            && j.attempt.stopReason ==
               (if found.attempt.stopReason.Some? && found.attempt.stopReason.value != "" then found.attempt.stopReason
                else Some("recovery-budget-exhausted"))
            && j.attempt.dispatchCount == found.attempt.dispatchCount && j.attempt.deadline == found.attempt.deadline
  {
    hide Perform, RecordPlan, Readable, NextRecoveryAttempt;
    var j := s.disk.journal;
    NextAttemptExistsExactlyWhen(j.attempt, now);
    var recording := RecordPlan(s, j.state, j.enqueued, j.attempt, sink);
    var stop := PutJournal(Stored(j.state, false, StopRecord(j.attempt)));
    RecordKeepsAuth(s, j.state, j.enqueued, j.attempt, sink);
    PerformAppend(s, recording, [stop]);
    PerformOne(Perform(s, recording), stop);
  }
}
