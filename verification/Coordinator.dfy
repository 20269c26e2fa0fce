// RefreshCoordinator (auth_session/coordinator.py): the lock sections that read and
// rewrite the three durable files, proved against their plans. A write may fail with the
// old or the new content in place; a failed temp-file cleanup raises differently.
module Coordinator {
  import opened Wrappers
  import opened StateMachine
  import opened Journal
  import opened Outbox
  import opened Budget
  import opened Protocol
  import opened Plans
  import opened Decisions
  import opened StartupRecovery

  // OSError, or the ExceptionGroup no handler expects.
  datatype Failure = StorageFailure | CleanupFailure

  // A completed operation performed its whole plan; a failed one, some prefix of it.
  ghost predicate CutOff(before: Snapshot, plan: Plan, after: Snapshot, completed: bool) {
    if completed then after == Perform(before, plan)
    else exists k :: 0 <= k <= |plan| && Reached(before, plan, after, k)
  }

  predicate Reached(before: Snapshot, plan: Plan, after: Snapshot, k: nat)
    requires k <= |plan|
  {
    after == Perform(before, plan[..k])
  }

  lemma CutInFirst(before: Snapshot, p: Plan, q: Plan, after: Snapshot)
    requires CutOff(before, p, after, false)
    ensures CutOff(before, p + q, after, false)
  {
    var k :| 0 <= k <= |p| && Reached(before, p, after, k);
    assert (p + q)[..k] == p[..k];
    assert Reached(before, p + q, after, k);
  }

  lemma CutInSecond(before: Snapshot, p: Plan, q: Plan, after: Snapshot, completed: bool)
    requires CutOff(Perform(before, p), q, after, completed)
    ensures CutOff(before, p + q, after, completed)
  {
    hide Perform;
    if completed {
      PerformAppend(before, p, q);
    } else {
      var k :| 0 <= k <= |q| && Reached(Perform(before, p), q, after, k);
      PerformAppend(before, p, q[..k]);
      assert (p + q)[..|p| + k] == p + q[..k];
      assert Reached(before, p + q, after, |p| + k);
    }
  }

  lemma CutOne(before: Snapshot, w: Write, after: Snapshot, completed: bool)
    requires after == before.After(w) || (!completed && after == before)
    ensures CutOff(before, [w], after, completed)
  {
    PerformOne(before, w);
    if !completed {
      if after == before {
        PerformNothing(before);
        assert [w][..0] == [];
        assert Reached(before, [w], after, 0);
      } else {
        assert [w][..1] == [w];
        assert Reached(before, [w], after, 1);
      }
    }
  }

  lemma CutNothing(before: Snapshot, plan: Plan)
    ensures CutOff(before, plan, before, plan == [])
    ensures CutOff(before, plan, before, false)
  {
    assert plan[..0] == [];
    PerformNothing(before);
    assert Reached(before, plan, before, 0);
  }

  class RefreshCoordinator {
    var auth: Option<StoredAuth>
    var journal: JournalFile
    var outbox: seq<OutboxRecord>
    // What the sink has accepted, and the revisions exchanges were sent with.
    ghost var accepted: set<string>
    ghost var exchanges: seq<Revision>
    const owner: RefreshOwner
    const alive: RefreshOwner -> bool
    const sink: string -> bool

    constructor (disk: Disk, owner: RefreshOwner, alive: RefreshOwner -> bool, sink: string -> bool)
      ensures Snap() == Snapshot(disk, {}) && exchanges == []
      ensures this.owner == owner && this.alive == alive && this.sink == sink
    {
      auth, journal, outbox := disk.auth, disk.journal, disk.outbox;
      this.owner, this.alive, this.sink := owner, alive, sink;
      accepted, exchanges := {}, [];
    }

    ghost function Snap(): Snapshot
      reads this
    {
      Snapshot(Disk(auth, journal, outbox), accepted)
    }

    // ------------------------------------------------------------- durable writes

    method Fail() returns (failure: Failure)
    {
      var cleanupToo: bool := *;
      failure := if cleanupToo then CleanupFailure else StorageFailure;
    }

    method WriteAuth(stored: StoredAuth) returns (r: Reply<(), Failure>)
      modifies this`auth
      ensures auth == Some(stored) || (r.Raised? && auth == old(auth))
    {
      var completed: bool, lands: bool := *, *;
      if completed || lands {
        auth := Some(stored);
      }
      if completed {
        return Value(());
      }
      var failure := Fail();
      return Raised(failure);
    }

    method WriteJournal(file: JournalFile) returns (r: Reply<(), Failure>)
      modifies this`journal
      ensures journal == file || (r.Raised? && journal == old(journal))
    {
      var completed: bool, lands: bool := *, *;
      if completed || lands {
        journal := file;
      }
      if completed {
        return Value(());
      }
      var failure := Fail();
      return Raised(failure);
    }

    method WriteOutbox(records: seq<OutboxRecord>) returns (r: Reply<(), Failure>)
      modifies this`outbox
      ensures outbox == records || (r.Raised? && outbox == old(outbox))
    {
      var completed: bool, lands: bool := *, *;
      if completed || lands {
        outbox := records;
      }
      if completed {
        return Value(());
      }
      var failure := Fail();
      return Raised(failure);
    }

    method DeleteJournal() returns (r: Reply<(), Failure>)
      modifies this`journal
      ensures CutOff(old(Snap()), DeletePlan(old(Snap()).disk), Snap(), r.Value?)
    {
      if journal == NoJournal {
        CutNothing(Snap(), []);
        return Value(());
      }
      r := WriteJournal(NoJournal);
      CutOne(old(Snap()), PutJournal(NoJournal), Snap(), r.Value?);
    }

    method EnqueueOutcome(state: RotationState) returns (r: Reply<(), Failure>)
      requires state.Terminal()
      modifies this`outbox
      ensures CutOff(old(Snap()), EnqueuePlan(old(Snap()).disk, state), Snap(), r.Value?)
    {
      var record := RecordOf(state);
      if record.key in Keys(outbox) {
        CutNothing(Snap(), []);
        return Value(());
      }
      r := WriteOutbox(outbox + [record]);
      CutOne(old(Snap()), PutOutbox(Enqueued(old(outbox), record)), Snap(), r.Value?);
    }

    // _drain_outbox
    method DrainOutbox() returns (r: Reply<(), Failure>)
      modifies this`outbox, this`accepted
      ensures CutOff(old(Snap()), DrainPlan(old(outbox), old(outbox), sink), Snap(), r.Value?)
    {
      hide Perform, CutOff, Acknowledged, DrainPlan;
      var records := outbox;
      ghost var before, performed := Snap(), [];
      PerformNothing(before);
      assert [] + DrainPlan(records, outbox, sink) == DrainPlan(records, outbox, sink);
      for i := 0 to |records|
        invariant auth == old(auth) && journal == old(journal)
        invariant Snap() == Perform(before, performed)
        invariant performed + DrainPlan(records[i..], outbox, sink) == DrainPlan(records, old(outbox), sink)
      {
        var key := records[i].key;
        DrainNext(records, i, outbox, sink);
        if sink(key) {
          ghost var rest := DrainPlan(records[i + 1..], Acknowledged(outbox, key), sink);
          accepted := accepted + {key};
          label delivered:
          r := WriteOutbox(Acknowledged(outbox, key));
          ghost var step := [Deliver(key), PutOutbox(Acknowledged(old@delivered(outbox), key))];
          assert performed + (step + rest) == (performed + step) + rest;
          if r.Raised? {
            DeliveryCutOff(Perform(before, performed), key, old@delivered(outbox), Snap());
            CutInSecond(before, performed, step, Snap(), false);
            CutInFirst(before, performed + step, rest, Snap());
            return;
          }
          PerformTwo(Perform(before, performed), Deliver(key), step[1]);
          PerformAppend(before, performed, step);
          performed := performed + step;
        }
      }
      DrainEnds(records, outbox, sink);
      assert performed + [] == performed;
      PerformedIsCompleted(before, performed, Snap());
      r := Value(());
    }

    // _record_terminal_outcome
    method RecordTerminalOutcome(state: RotationState, attempt: RotationAttempt, enqueued: bool)
      returns (r: Reply<(), Failure>)
      requires state.Terminal()
      modifies this`journal, this`outbox, this`accepted
      ensures CutOff(old(Snap()), RecordPlan(old(Snap()), state, enqueued, attempt, sink), Snap(), r.Value?)
    {
      hide Perform, DrainPlan, Keys, CutOff, EventKey;
      ghost var before := Snap();
      ghost var file := PutJournal(Stored(state, true, attempt));
      ghost var marking := if enqueued then [] else EnqueuePlan(before.disk, state) + [file];
      ghost var marked := Perform(before, marking);
      ghost var draining := DrainPlan(marked.disk.outbox, marked.disk.outbox, sink);
      ghost var drained := Perform(marked, draining);
      ghost var deleting := if state.Rotated? && KeyOf(state) !in Keys(drained.disk.outbox)
        then DeletePlan(drained.disk) else [];
      assert RecordPlan(before, state, enqueued, attempt, sink) == marking + draining + deleting;
      if !enqueued {
        r := EnqueueOutcome(state);
        if r.Raised? {
          CutInFirst(before, EnqueuePlan(before.disk, state), [file], Snap());
          CutInFirst(before, marking, draining, Snap());
          CutInFirst(before, marking + draining, deleting, Snap());
          return;
        }
        CutCompleted(before, EnqueuePlan(before.disk, state), Snap());
        ghost var mid := Snap();
        r := WriteJournal(Stored(state, true, attempt));
        CutOne(mid, file, Snap(), r.Value?);
        CutInSecond(before, EnqueuePlan(before.disk, state), [file], Snap(), r.Value?);
        if r.Raised? {
          CutInFirst(before, marking, draining, Snap());
          CutInFirst(before, marking + draining, deleting, Snap());
          return;
        }
        CutCompleted(before, marking, Snap());
      } else {
        PerformNothing(before);
      }
      r := DrainOutbox();
      CutInSecond(before, marking, draining, Snap(), r.Value?);
      if r.Raised? {
        CutInFirst(before, marking + draining, deleting, Snap());
        return;
      }
      CutCompleted(before, marking + draining, Snap());
      PerformAppend(before, marking, draining);
      if state.Rotated? && KeyOf(state) !in Keys(outbox) {
        r := DeleteJournal();
      } else {
        CutNothing(Snap(), []);
      }
      CutInSecond(before, marking + draining, deleting, Snap(), r.Value?);
    }

    // _discard_rotation_state
    method DiscardRotationState(state: RotationState, enqueued: bool) returns (r: Reply<(), Failure>)
      modifies this`journal, this`outbox
      ensures CutOff(old(Snap()), DiscardPlan(old(Snap()).disk, state, enqueued), Snap(), r.Value?)
    {
      hide Perform, Keys, CutOff, EventKey;
      ghost var before := Snap();
      ghost var enqueuing := if state.Terminal() && !enqueued then EnqueuePlan(before.disk, state) else [];
      if state.Terminal() && !enqueued {
        r := EnqueueOutcome(state);
        if r.Raised? {
          CutInFirst(before, enqueuing, DeletePlan(before.disk), Snap());
          return;
        }
        CutCompleted(before, enqueuing, Snap());
      } else {
        PerformNothing(before);
      }
      r := DeleteJournal();
      CutInSecond(before, enqueuing, DeletePlan(before.disk), Snap(), r.Value?);
    }

    // _recover_rotated: compare-and-set, then the record.
    method RecoverRotated(state: RotationState, attempt: RotationAttempt, enqueued: bool)
      returns (r: Reply<(), Failure>)
      requires state.Rotated? && auth.Some? && auth.value.revision == state.source
      modifies this`auth, this`journal, this`outbox, this`accepted
      ensures CutOff(old(Snap()), InstallPlan(old(Snap()), state, enqueued, attempt, sink), Snap(), r.Value?)
    {
      hide Perform, Keys, CutOff, EventKey, RecordPlan;
      ghost var before := Snap();
      if !auth.value.credential.Cookie? {
        CutNothing(before, []);
        return Value(());
      }
      var replacement := InstalledAuth(state);
      ghost var write := PutAuth(replacement);
      ghost var recording := RecordPlan(before.After(write), state, enqueued, attempt, sink);
      r := WriteAuth(replacement);
      CutOne(before, write, Snap(), r.Value?);
      if r.Raised? {
        CutInFirst(before, [write], recording, Snap());
        return;
      }
      CutCompleted(before, [write], Snap());
      PerformOne(before, write);
      r := RecordTerminalOutcome(state, attempt, enqueued);
      CutInSecond(before, [write], recording, Snap(), r.Value?);
    }

    // The first write of _recover_requested and of its startup twin, and the record.
    method MarkUnknown(file: JournalFile) returns (r: Reply<(), Failure>)
      requires file.Stored? && file.state.OutcomeUnknown? && !file.enqueued
      modifies this`journal, this`outbox, this`accepted
      ensures CutOff(old(Snap()), MarkUnknownPlan(old(Snap()), file, sink), Snap(), r.Value?)
    {
      r := WriteAndRecord(file);
    }

    // Write a fresh terminal journal, then record it.
    method WriteAndRecord(file: JournalFile) returns (r: Reply<(), Failure>)
      requires file.Stored? && file.state.Terminal() && !file.enqueued
      modifies this`journal, this`outbox, this`accepted
      ensures CutOff(old(Snap()),
                     [PutJournal(file)]
                     + RecordPlan(old(Snap()).After(PutJournal(file)), file.state, false, file.attempt, sink),
                     Snap(), r.Value?)
    {
      hide Perform, Keys, CutOff, EventKey, RecordPlan;
      ghost var before := Snap();
      ghost var write := PutJournal(file);
      ghost var recording := RecordPlan(before.After(write), file.state, false, file.attempt, sink);
      r := WriteJournal(file);
      CutOne(before, write, Snap(), r.Value?);
      if r.Raised? {
        CutInFirst(before, [write], recording, Snap());
        return;
      }
      CutCompleted(before, [write], Snap());
      PerformOne(before, write);
      r := RecordTerminalOutcome(file.state, file.attempt, false);
      CutInSecond(before, [write], recording, Snap(), r.Value?);
    }

    // ---------------------------------------------------------------- startup

    // _recover_startup
    method RecoverStartup(now: int) returns (r: Reply<(), Failure>)
      modifies this`auth, this`journal, this`outbox, this`accepted
      ensures CutOff(old(Snap()), StartupPlan(old(Snap()), now, alive, sink), Snap(), r.Value?)
    {
      hide Perform, Keys, CutOff, EventKey, RecordPlan, DrainPlan, StartupJournalPlan;
      ghost var before := Snap();
      if auth.None? {
        CutNothing(before, []);
        return Value(());
      }
      ghost var draining := DrainPlan(outbox, outbox, sink);
      ghost var rest := StartupJournalPlan(Perform(before, draining), now, alive, sink);
      r := DrainOutbox();
      if r.Raised? {
        CutInFirst(before, draining, rest, Snap());
        return;
      }
      CutCompleted(before, draining, Snap());
      r := RecoverStartupJournal(now);
      CutInSecond(before, draining, rest, Snap(), r.Value?);
    }

    // _recover_startup_journal
    method RecoverStartupJournal(now: int) returns (r: Reply<(), Failure>)
      modifies this`auth, this`journal, this`outbox, this`accepted
      ensures CutOff(old(Snap()), StartupJournalPlan(old(Snap()), now, alive, sink), Snap(), r.Value?)
    {
      hide Perform, Keys, CutOff, EventKey, RecordPlan, Readable, DiscardPlan, DeletePlan, InstallPlan,
           WithContinuation;
      CutNothing(Snap(), []);
      var load := journal.Read();
      if !load.JournalLoaded? || load.state.Ready? || auth.None? {
        return Value(());
      }
      var state, enqueued, attempt, current := load.state, load.enqueued, load.attempt, auth.value;
      if state.Rotated? && state.successor == current.revision {
        r := RecordTerminalOutcome(state, attempt, enqueued);
      } else if state.source != current.revision {
        r := DiscardRotationState(state, enqueued);
      } else if state.Rotated? {
        r := RecoverRotated(state, attempt, enqueued);
      } else if state.Reserved? {
        r := DeleteJournal();
      } else if state.Requested? {
        if OwnerAlive(attempt, alive) {
          return Value(());
        }
        r := MarkUnknown(UnknownFile(state.source, EXITED, attempt, now));
      } else {
        r := RecordTerminalOutcome(state, attempt, enqueued);
      }
    }

    // ---------------------------------------------------------------- refresh

    // _prepare_dispatch
    method PrepareDispatch(current: StoredAuth, attempt: RotationAttempt) returns (r: Reply<Outcome, Failure>)
      modifies this`journal
      ensures CutOff(old(Snap()), DispatchPlan(current, attempt, owner).plan, Snap(), r.Value?)
      ensures r.Value? ==> r.value == DispatchPlan(current, attempt, owner).outcome
    {
      hide Perform, CutOff, Owned;
      ghost var before := Snap();
      var owned := Owned(attempt, owner);
      var reserved, requested := Stored(Reserved(current.revision), false, owned),
        Stored(Requested(current.revision), false, owned);
      assert [PutJournal(reserved)] + [PutJournal(requested)] == [PutJournal(reserved), PutJournal(requested)];
      var w := WriteJournal(reserved);
      CutOne(before, PutJournal(reserved), Snap(), w.Value?);
      if w.Raised? {
        CutInFirst(before, [PutJournal(reserved)], [PutJournal(requested)], Snap());
        return Raised(w.error);
      }
      CutCompleted(before, [PutJournal(reserved)], Snap());
      ghost var mid := Snap();
      w := WriteJournal(requested);
      CutOne(mid, PutJournal(requested), Snap(), w.Value?);
      CutInSecond(before, [PutJournal(reserved)], [PutJournal(requested)], Snap(), w.Value?);
      r := if w.Raised? then Raised(w.error) else Value(Dispatch(current, attempt.kind));
    }

    // _recover_unknown
    method RecoverUnknown(current: StoredAuth, state: RotationState, attempt: RotationAttempt, now: int)
      returns (r: Reply<Outcome, Failure>)
      requires state.OutcomeUnknown?
      modifies this`journal
      ensures var p := RecoverUnknownPlan(current, state, attempt, now, owner);
              && CutOff(old(Snap()), p.plan, Snap(), r.Value?)
              && (r.Value? ==> r.value == p.outcome)
    {
      hide Perform, CutOff, Owned, StopRecord, RecoveryDispatchIsAuthorized;
      ghost var before := Snap();
      var next := NextRecoveryAttempt(attempt, now);
      if next.None? {
        var stopped := Stored(state, false, StopRecord(attempt));
        var w := WriteJournal(stopped);
        CutOne(before, PutJournal(stopped), Snap(), w.Value?);
        r := if w.Raised? then Raised(w.error) else Value(WaitForRevision(state.source));
        return;
      }
      CutNothing(before, []);
      var retryAfter := SecondsUntil(next.value.nextAttemptAt, now);
      var lane := attempt.continuation.value.lane;
      if retryAfter > 0 {
        return Value(RecoveryRequired(state.source, lane, retryAfter));
      }
      if Step(state, AuthorizeRecoveryDispatch(AuthorizationOf(next.value, lane, now))).None? {
        return Value(InvalidTransition);
      }
      r := PrepareDispatch(current, next.value);
    }

    // The end of _prepare, when no journal stands in the way.
    method PrepareFirstDispatch(current: StoredAuth, expected: Option<Revision>, now: int)
      returns (r: Reply<Outcome, Failure>)
      modifies this`journal, this`outbox, this`accepted
      ensures var p := FirstDispatchPlan(old(Snap()), current, expected, now, owner, sink);
              && CutOff(old(Snap()), p.plan, Snap(), r.Value?)
              && (r.Value? ==> r.value == p.outcome)
    {
      hide Perform, CutOff, DrainPlan, FirstAttempt;
      ghost var before, draining := Snap(), DrainPlan(outbox, outbox, sink);
      ghost var rest := if expected.Some? && expected.value != current.revision then []
                        else DispatchPlan(current, FirstAttempt(current.revision, now), owner).plan;
      var w := DrainOutbox();
      if w.Raised? {
        CutInFirst(before, draining, rest, Snap());
        return Raised(w.error);
      }
      CutCompleted(before, draining, Snap());
      if expected.Some? && expected.value != current.revision {
        CutNothing(Snap(), []);
        r := Value(ReturnAuth(current));
      } else {
        r := PrepareDispatch(current, FirstAttempt(current.revision, now));
      }
      CutInSecond(before, draining, rest, Snap(), r.Value?);
    }

    // _recover_matching_state
    method RecoverMatchingState(current: StoredAuth, state: RotationState, attempt: RotationAttempt, enqueued: bool,
                                expected: Option<Revision>, now: int)
      returns (r: Reply<Outcome, Failure>)
      requires !state.Ready? && auth == Some(current) && current.credential.Cookie? && state.source == current.revision
      modifies this`auth, this`journal, this`outbox, this`accepted
      ensures var p := RecoverMatchingPlan(old(Snap()), current, state, enqueued, attempt, expected, now, owner,
                                           alive, sink);
              && CutOff(old(Snap()), p.plan, Snap(), r.Value?)
              && (r.Value? ==> r.value == p.outcome)
    {
      hide Perform, CutOff, RecordPlan, InstallPlan, MarkUnknownPlan, RecoverUnknownPlan, FirstDispatchPlan,
           WithContinuation;
      ghost var before := Snap();
      match state {
        case Rotated(_, _, _) =>
          var w := RecoverRotated(state, attempt, enqueued);
          r := if w.Raised? then Raised(w.error) else Value(ReturnAuth(InstalledAuth(state)));
        case Reserved(_) =>
          var w := DeleteJournal();
          ghost var deleting := DeletePlan(before.disk);
          ghost var rest := FirstDispatchPlan(Perform(before, deleting), current, expected, now, owner, sink).plan;
          if w.Raised? {
            CutInFirst(before, deleting, rest, Snap());
            return Raised(w.error);
          }
          CutCompleted(before, deleting, Snap());
          r := PrepareFirstDispatch(current, expected, now);
          CutInSecond(before, deleting, rest, Snap(), r.Value?);
        case Requested(source) =>
          if OwnerAlive(attempt, alive) {
            CutNothing(before, []);
            return Value(WaitForRevision(source));
          }
          var file := UnknownFile(source, INTERRUPTED, attempt, now);
          ghost var marking := MarkUnknownPlan(before, file, sink);
          ghost var rest := RecoverUnknownPlan(current, file.state, file.attempt, now, owner).plan;
          var w := MarkUnknown(file);
          if w.Raised? {
            CutInFirst(before, marking, rest, Snap());
            return Raised(w.error);
          }
          CutCompleted(before, marking, Snap());
          r := RecoverUnknown(current, file.state, file.attempt, now);
          CutInSecond(before, marking, rest, Snap(), r.Value?);
        case OutcomeUnknown(_, _) =>
          ghost var recording := RecordPlan(before, state, enqueued, attempt, sink);
          ghost var rest := RecoverUnknownPlan(current, state, attempt, now, owner).plan;
          var w := RecordTerminalOutcome(state, attempt, enqueued);
          if w.Raised? {
            CutInFirst(before, recording, rest, Snap());
            return Raised(w.error);
          }
          CutCompleted(before, recording, Snap());
          r := RecoverUnknown(current, state, attempt, now);
          CutInSecond(before, recording, rest, Snap(), r.Value?);
        case Rejected(source, _) =>
          var w := RecordTerminalOutcome(state, attempt, enqueued);
          r := if w.Raised? then Raised(w.error) else Value(WaitForRevision(source));
      }
    }

    // _prepare; `readable` says whether the journal file could be read.
    method Prepare(expected: Option<Revision>, now: int, readable: bool) returns (r: Reply<Outcome, Failure>)
      modifies this`auth, this`journal, this`outbox, this`accepted
      ensures var p := PreparePlan(old(Snap()), expected, now, owner, alive, sink, readable);
              && CutOff(old(Snap()), p.plan, Snap(), r.Value?)
              && (r.Value? ==> r.value == p.outcome)
      // What it answers, by the disk it found.
      ensures r.Value? ==> AnswersPreparation(old(Snap().disk), expected, now, alive, readable, r.value)
      ensures r.Value? ==> (r.value.Dispatch? <==> Sends(old(Snap().disk), expected, now, readable))
      ensures r.Value? && old(auth.Some? && auth.value.credential.Cookie?) && old(journal) == NoJournal && readable ==>
                r.value == if expected.None? || expected.value == old(auth.value.revision)
                           then Dispatch(old(auth.value), Normal) else ReturnAuth(old(auth.value))
    {
      hide Perform, CutOff, RecordPlan, DiscardPlan, FirstDispatchPlan, RecoverMatchingPlan, Readable,
           AnswersPreparation, Sends;
      PrepareAnswers(Snap(), expected, now, owner, alive, sink, readable);
      ghost var before := Snap();
      CutNothing(before, []);
      if auth.None? || !auth.value.credential.Cookie? {
        return Value(AuthRequired);
      }
      var current := auth.value;
      var load := if readable then journal.Read() else JournalIoFailure;
      if load.JournalCorrupt? || load.JournalIoFailure? {
        return Value(StorageError);
      }
      if load.JournalAbsent? {
        r := PrepareFirstDispatch(current, expected, now);
        return;
      }
      var state, enqueued, attempt := load.state, load.enqueued, load.attempt;
      if state.Ready? {
        return Value(StorageError);
      }
      if state.Rotated? && state.successor == current.revision {
        var w := RecordTerminalOutcome(state, attempt, enqueued);
        r := if w.Raised? then Raised(w.error) else Value(ReturnAuth(current));
        return;
      }
      if state.source != current.revision {
        ghost var discarding := DiscardPlan(before.disk, state, enqueued);
        ghost var rest := FirstDispatchPlan(Perform(before, discarding), current, expected, now, owner, sink).plan;
        var w := DiscardRotationState(state, enqueued);
        if w.Raised? {
          CutInFirst(before, discarding, rest, Snap());
          return Raised(w.error);
        }
        CutCompleted(before, discarding, Snap());
        r := PrepareFirstDispatch(current, expected, now);
        CutInSecond(before, discarding, rest, Snap(), r.Value?);
        return;
      }
      r := RecoverMatchingState(current, state, attempt, enqueued, expected, now);
    }

    // _commit_success, _commit_rejected and _commit_unknown, by the classified answer.
    method CommitAnswer(source: Revision, answer: Answer, now: int, reason: string,
                        responseClass: Option<string>, readable: bool)
      returns (r: Reply<Outcome, Failure>)
      modifies this`auth, this`journal, this`outbox, this`accepted
      ensures var p := CommitPlan(old(Snap()), source, answer, now, reason, responseClass, readable, sink);
              && CutOff(old(Snap()), p.plan, Snap(), r.Value?)
              && (r.Value? ==> r.value == p.outcome)
      ensures r.Value? ==> AnswersCommit(old(Snap().disk), source, answer, now, readable, r.value)
    {
      hide Perform, CutOff, RecordPlan, AttemptFor, WithContinuation, Keys, EventKey, AnswersCommit;
      CommitIsAnswered(Snap(), source, answer, now, reason, responseClass, readable, sink);
      ghost var before := Snap();
      if auth.None? || auth.value.revision != source {
        CutNothing(before, []);
        return Value(SupersededOutcome(Disk(auth, journal, outbox)));
      }
      var file := CommitFile(journal, source, answer, now, reason, responseClass, readable);
      if !answer.Succeeded? {
        var w := WriteAndRecord(file);
        if w.Raised? {
          return Raised(w.error);
        }
        return Value(if answer.Refused? || file.attempt.IsStopped() then TerminalRevisionRequired(source)
                     else RecoveryRequired(source, answer.lane, 0));
      }
      var w, outcome := WriteAndInstall(file);
      r := if w.Raised? then Raised(w.error) else Value(ReturnAuth(outcome));
    }

    // Write a ROTATED journal, then install its successor over its source.
    method WriteAndInstall(file: JournalFile) returns (r: Reply<(), Failure>, installed: StoredAuth)
      requires file.Stored? && file.state.Rotated? && !file.enqueued && auth.Some?
               && auth.value.revision == file.state.source
      modifies this`auth, this`journal, this`outbox, this`accepted
      ensures var write := PutJournal(file);
              CutOff(old(Snap()),
                     [write] + InstallPlan(old(Snap()).After(write), file.state, false, file.attempt, sink),
                     Snap(), r.Value?)
      ensures installed == if old(auth.value.credential.Cookie?) then InstalledAuth(file.state) else old(auth.value)
    {
      hide Perform, CutOff, RecordPlan, Keys, EventKey;
      ghost var before := Snap();
      ghost var write := PutJournal(file);
      ghost var installing := InstallPlan(before.After(write), file.state, false, file.attempt, sink);
      installed := if auth.value.credential.Cookie? then InstalledAuth(file.state) else auth.value;
      r := WriteJournal(file);
      CutOne(before, write, Snap(), r.Value?);
      if r.Raised? {
        CutInFirst(before, [write], installing, Snap());
        return;
      }
      CutCompleted(before, [write], Snap());
      PerformOne(before, write);
      r := RecoverRotated(file.state, file.attempt, false);
      CutInSecond(before, [write], installing, Snap(), r.Value?);
    }

    // project_retained_successor
    method ProjectRetainedSuccessor(kept: Successor, readable: bool) returns (r: Reply<Outcome, Failure>)
      modifies this`auth, this`journal, this`outbox, this`accepted
      ensures var p := ProjectPlan(old(Snap()), kept, readable, sink);
              && CutOff(old(Snap()), p.plan, Snap(), r.Value?)
              && (r.Value? ==> r.value == p.outcome)
      ensures r.Value? ==> AnswersProjection(old(Snap().disk), kept, r.value)
    {
      hide Perform, CutOff, RecordPlan, AttemptFor, Keys, EventKey, AnswersProjection;
      ProjectionIsAnswered(Snap(), kept, readable, sink);
      ghost var before := Snap();
      var attempt := WithoutOwner(AttemptFor(journal, kept.source, readable));
      if auth.Some? && auth.value.revision == kept.revision {
        var w := RecordTerminalOutcome(kept.State(), attempt, false);
        return if w.Raised? then Raised(w.error) else Value(ReturnAuth(auth.value));
      }
      if auth.None? || auth.value.revision != kept.source {
        CutNothing(before, []);
        return Value(Superseded(if auth.Some? then Some(auth.value.revision) else None));
      }
      var cookie := auth.value.credential.Cookie?;
      var w, installed := WriteAndInstall(Stored(kept.State(), false, attempt));
      r := if w.Raised? then Raised(w.error)
           else Value(if cookie then ReturnAuth(installed) else Superseded(Some(kept.source)));
    }

    // import_credential
    method ImportCredential(imported: StoredAuth, readable: bool) returns (r: Reply<(), Failure>)
      modifies this`auth, this`journal, this`outbox
      ensures CutOff(old(Snap()), ImportPlan(old(Snap()).disk, imported, readable), Snap(), r.Value?)
    {
      hide Perform, CutOff, Keys, EventKey, Readable, DeletePlan;
      ghost var before, write := Snap(), PutAuth(imported);
      var load := if readable then journal.Read() else JournalIoFailure;
      var enqueues := load.JournalLoaded? && load.state.Terminal() && !load.enqueued;
      ghost var enqueuing := if enqueues then EnqueuePlan(before.disk, load.state) else [];
      ghost var deleting := DeletePlan(before.disk);
      assert ImportPlan(before.disk, imported, readable) == [write] + enqueuing + deleting;
      r := WriteAuth(imported);
      CutOne(before, write, Snap(), r.Value?);
      if r.Raised? {
        CutInFirst(before, [write], enqueuing, Snap());
        CutInFirst(before, [write] + enqueuing, deleting, Snap());
        return;
      }
      CutCompleted(before, [write], Snap());
      ghost var mid := Snap();
      if enqueues {
        r := EnqueueOutcome(load.state);
      } else {
        CutNothing(mid, []);
      }
      CutInSecond(before, [write], enqueuing, Snap(), r.Value?);
      if r.Raised? {
        CutInFirst(before, [write] + enqueuing, deleting, Snap());
        return;
      }
      CutCompleted(before, [write] + enqueuing, Snap());
      assert DeletePlan(Snap().disk) == deleting by { DeletionDependsOnTheJournal(Snap().disk, before.disk); }
      r := DeleteJournal();
      CutInSecond(before, [write] + enqueuing, deleting, Snap(), r.Value?);
    }

    // refresh: at most one exchange, sent only after both records are durable; imports
    // may land while it is in flight. A storage failure after a successful answer hands
    // the successor to the caller. `trail` holds what was on disk when the exchange was
    // sent and after each import, and is empty when none was sent.
    method Refresh(expected: Option<Revision>, readable: bool, now: int, imports: seq<ImportCall>, answer: Answer,
                   later: int, reason: string, responseClass: Option<string>, rereadable: bool)
      returns (r: Reply<Outcome, Failure>, retained: Option<Successor>, ghost trail: seq<Snapshot>)
      modifies this
      // Nothing is sent: only preparation ran.
      ensures var p := PreparePlan(old(Snap()), expected, now, owner, alive, sink, readable);
              trail == [] ==>
                && exchanges == old(exchanges) && CutOff(old(Snap()), p.plan, Snap(), r.Value?)
                && (r.Value? ==> r.value == p.outcome && !p.outcome.Dispatch?)
                && (r.Value? ==> AnswersPreparation(old(Snap().disk), expected, now, alive, readable, r.value))
      // Whether anything is sent, unless a write fails first.
      ensures trail != [] ==> Sends(old(Snap().disk), expected, now, readable)
      ensures trail == [] && r.Value? ==> !Sends(old(Snap().disk), expected, now, readable)
      // Sent with the credential preparation found and announced, once.
      ensures var p := PreparePlan(old(Snap()), expected, now, owner, alive, sink, readable);
              trail != [] ==>
                && p.outcome.Dispatch? && old(auth) == Some(p.outcome.auth) && p.outcome.auth.credential.Cookie?
                && exchanges == old(exchanges) + [p.outcome.auth.revision]
                && trail[0] == Perform(old(Snap()), p.plan) && Imports(trail, imports)
      // The answer is committed to whatever the imports left.
      ensures trail != [] ==>
                var source, last := old(auth).value.revision, trail[|trail| - 1];
                var p := CommitPlan(last, source, answer, later, reason, responseClass, rereadable, sink);
                && CutOff(last, p.plan, Snap(), r.Value?) && (r.Value? ==> r.value == p.outcome)
                && (r.Value? ==> AnswersCommit(last.disk, source, answer, later, rereadable, r.value))
      ensures retained ==
              if trail != [] && answer.Succeeded? && r == Raised(StorageFailure)
              then Some(Successor(old(auth).value.revision, answer.cookie, answer.successor)) else None
    {
      hide Perform, CutOff, CommitPlan, RecordPlan, FirstDispatchPlan, RecoverMatchingPlan, DiscardPlan, Readable,
           ImportPlan, PreparePlan, AnswersPreparation, AnswersCommit, Sends;
      retained, trail := None, [];
      var prepared := Prepare(expected, now, readable);
      PrepareAnswers(old(Snap()), expected, now, owner, alive, sink, readable);
      if prepared.Raised? || !prepared.value.Dispatch? {
        return prepared, None, [];
      }
      DispatchIsDurable(old(Snap()), expected, now, owner, alive, sink, readable);
      CutCompleted(old(Snap()), PreparePlan(old(Snap()), expected, now, owner, alive, sink, readable).plan, Snap());
      var source := prepared.value.auth.revision;
      assert journal.Stored? && journal.state == Requested(source) && AttemptOwner(journal.attempt) == Some(owner);
      exchanges := exchanges + [source];
      trail := [Snap()];
      for i := 0 to |imports|
        invariant exchanges == old(exchanges) + [source]
        invariant |trail| == i + 1 && trail[i] == Snap()
                  && trail[0] == Perform(old(Snap()),
                                         PreparePlan(old(Snap()), expected, now, owner, alive, sink, readable).plan)
        invariant Imports(trail, imports[..i])
      {
        ghost var before := Snap();
        var imported := ImportCredential(imports[i].auth, imports[i].readable);
        assert imports[..i + 1] == imports[..i] + [imports[i]];
        ImportsOneMore(trail, imports[..i], imports[i], Snap(), imported.Value?);
        trail := trail + [Snap()];
      }
      assert imports[..|imports|] == imports;
      r := CommitAnswer(source, answer, later, reason, responseClass, rereadable);
      if r == Raised(StorageFailure) && answer.Succeeded? {
        retained := Some(Successor(source, answer.cookie, answer.successor));
      }
    }
  }

  // One import while the exchange is in flight.
  datatype ImportCall = ImportCall(auth: StoredAuth, readable: bool)

  // Each import performed its plan, or some of it.
  ghost predicate Imports(trail: seq<Snapshot>, imports: seq<ImportCall>) {
    && |trail| == |imports| + 1
    && forall i :: 0 <= i < |imports| ==> ImportStep(trail[i], imports[i], trail[i + 1])
  }

  ghost predicate ImportStep(before: Snapshot, call: ImportCall, after: Snapshot) {
    exists completed :: CutOff(before, ImportPlan(before.disk, call.auth, call.readable), after, completed)
  }

  lemma ImportsOneMore(trail: seq<Snapshot>, imports: seq<ImportCall>, call: ImportCall, after: Snapshot,
                       completed: bool)
    requires Imports(trail, imports)
    requires var last := trail[|trail| - 1];
             CutOff(last, ImportPlan(last.disk, call.auth, call.readable), after, completed)
    ensures Imports(trail + [after], imports + [call])
  {
    hide CutOff, ImportPlan;
    assert ImportStep(trail[|trail| - 1], call, after);
  }

  lemma CutCompleted(before: Snapshot, plan: Plan, after: Snapshot)
    requires CutOff(before, plan, after, true)
    ensures after == Perform(before, plan)
  {
  }

  lemma DeletionDependsOnTheJournal(d: Disk, e: Disk)
    requires d.journal == e.journal
    ensures DeletePlan(d) == DeletePlan(e)
  {
  }

  lemma PerformedIsCompleted(before: Snapshot, plan: Plan, after: Snapshot)
    requires after == Perform(before, plan)
    ensures CutOff(before, plan, after, true)
  {
  }

  lemma DrainNext(records: seq<OutboxRecord>, i: nat, outbox: seq<OutboxRecord>, sink: string -> bool)
    requires i < |records|
    ensures var key, left := records[i].key, Acknowledged(outbox, records[i].key);
            DrainPlan(records[i..], outbox, sink) ==
            if sink(key) then [Deliver(key), PutOutbox(left)] + DrainPlan(records[i + 1..], left, sink)
            else DrainPlan(records[i + 1..], outbox, sink)
  {
    assert records[i..][0] == records[i] && records[i..][1..] == records[i + 1..];
  }

  lemma DrainEnds(records: seq<OutboxRecord>, outbox: seq<OutboxRecord>, sink: string -> bool)
    ensures DrainPlan(records[|records|..], outbox, sink) == []
  {
  }

  lemma DeliveryCutOff(before: Snapshot, key: string, records: seq<OutboxRecord>, after: Snapshot)
    requires var delivered := before.After(Deliver(key));
             after == delivered || after == delivered.After(PutOutbox(Acknowledged(records, key)))
    ensures CutOff(before, [Deliver(key), PutOutbox(Acknowledged(records, key))], after, false)
  {
    var write := PutOutbox(Acknowledged(records, key));
    PerformOne(before, Deliver(key));
    CutOne(before.After(Deliver(key)), write, after, false);
    CutInSecond(before, [Deliver(key)], [write], after, false);
    assert [Deliver(key)] + [write] == [Deliver(key), write];
  }

  lemma PrepareAnswers(s: Snapshot, expected: Option<Revision>, now: int, owner: RefreshOwner,
                       alive: RefreshOwner -> bool, sink: string -> bool, readable: bool)
    ensures var r := PreparePlan(s, expected, now, owner, alive, sink, readable).outcome;
            && AnswersPreparation(s.disk, expected, now, alive, readable, r)
            && (r.Dispatch? <==> Sends(s.disk, expected, now, readable))
            && (r.Dispatch? ==> HasCookie(s.disk) && s.disk.auth == Some(r.auth))
            && (HasCookie(s.disk) && s.disk.journal == NoJournal && readable ==>
                  r == if expected.None? || expected.value == s.disk.auth.value.revision
                       then Dispatch(s.disk.auth.value, Normal) else ReturnAuth(s.disk.auth.value))
  {
    hide PreparePlan;
    PreparationIsAnswered(s, expected, now, owner, alive, sink, readable);
  }

  // The last write of a dispatching plan is the REQUESTED record of this process, under a
  // first attempt, or under the next one after the attempt that was found.
  predicate Announces(p: Planned, owner: RefreshOwner, found: JournalFile, now: int) {
    p.outcome.Dispatch? ==>
      && p.plan != [] && var last := p.plan[|p.plan| - 1];
         last.PutJournal? && last.file.Stored? && !last.file.enqueued
         && last.file.state == Requested(p.outcome.auth.revision)
         && AttemptOwner(last.file.attempt) == Some(owner) && last.file.attempt.kind == p.outcome.kind
         && (p.outcome.kind.Normal? ==> IsFirstAttempt(last.file.attempt, p.outcome.auth.revision, now))
         && (p.outcome.kind.Recovery? ==> found.HasContent() && IsNextAttempt(last.file.attempt, found.attempt))
  }

  lemma FollowingAnnounces(p: Planned, first: Plan, owner: RefreshOwner, found: JournalFile, now: int)
    requires Announces(p, owner, found, now)
    ensures Announces(p.Following(first), owner, found, now)
  {
  }

  lemma FirstDispatchAnnounces(s: Snapshot, auth: StoredAuth, expected: Option<Revision>, now: int, owner: RefreshOwner,
                               sink: string -> bool, found: JournalFile)
    ensures Announces(FirstDispatchPlan(s, auth, expected, now, owner, sink), owner, found, now)
  {
    hide DrainPlan;
  }

  lemma RecoverUnknownAnnounces(auth: StoredAuth, found: JournalFile, now: int, owner: RefreshOwner)
    requires found.HasContent() && found.state.OutcomeUnknown?
    ensures Announces(RecoverUnknownPlan(auth, found.state, found.attempt, now, owner), owner, found, now)
  {
    hide RecoveryDispatchIsAuthorized, StopRecord;
  }

  lemma PrepareAnnounces(s: Snapshot, expected: Option<Revision>, now: int, owner: RefreshOwner,
                         alive: RefreshOwner -> bool, sink: string -> bool, readable: bool)
    ensures Announces(PreparePlan(s, expected, now, owner, alive, sink, readable), owner, s.disk.journal, now)
  {
    hide Perform, DrainPlan, RecordPlan, Readable, FirstDispatchPlan, RecoverUnknownPlan, WithContinuation, DiscardPlan,
         DeletePlan, InstallPlan, MarkUnknownPlan;
    var d := s.disk;
    if d.auth.Some? && readable {
      var auth, j := d.auth.value, d.journal;
      FirstDispatchAnnounces(s, auth, expected, now, owner, sink, j);
      if j.Loads() && !j.state.Ready? {
        var first := if d.Current(j.state.source) then DeletePlan(d) else DiscardPlan(d, j.state, j.enqueued);
        FirstDispatchAnnounces(Perform(s, first), auth, expected, now, owner, sink, j);
        FollowingAnnounces(FirstDispatchPlan(Perform(s, first), auth, expected, now, owner, sink), first, owner,
                           j, now);
        if j.state.Requested? {
          DeadDispatchIsAnswered(auth, j.attempt, now, owner, INTERRUPTED);
        } else if j.state.OutcomeUnknown? {
          RecoverUnknownAnnounces(auth, j, now, owner);
          FollowingAnnounces(RecoverUnknownPlan(auth, j.state, j.attempt, now, owner),
                             RecordPlan(s, j.state, j.enqueued, j.attempt, sink), owner, j, now);
        }
      }
    }
  }

  // Whenever preparation returns a dispatch, from any disk at all, the REQUESTED journal
  // of that revision, owned by this process, is already durable.
  lemma DispatchIsDurable(s: Snapshot, expected: Option<Revision>, now: int, owner: RefreshOwner,
                          alive: RefreshOwner -> bool, sink: string -> bool, readable: bool)
    ensures var p := PreparePlan(s, expected, now, owner, alive, sink, readable);
            var j := Perform(s, p.plan).disk.journal;
            p.outcome.Dispatch? ==>
              && j.Stored? && !j.enqueued && j.state == Requested(p.outcome.auth.revision)
              && AttemptOwner(j.attempt) == Some(owner) && j.attempt.kind == p.outcome.kind
              && (p.outcome.kind.Normal? ==> IsFirstAttempt(j.attempt, p.outcome.auth.revision, now))
              && (p.outcome.kind.Recovery? ==>
                    s.disk.journal.HasContent() && IsNextAttempt(j.attempt, s.disk.journal.attempt))
  {
    hide PreparePlan, Perform, IsFirstAttempt, IsNextAttempt;
    PrepareAnnounces(s, expected, now, owner, alive, sink, readable);
    var p := PreparePlan(s, expected, now, owner, alive, sink, readable);
    if p.outcome.Dispatch? {
      var n := |p.plan| - 1;
      assert p.plan == p.plan[..n] + [p.plan[n]];
      PerformAppend(s, p.plan[..n], [p.plan[n]]);
      PerformOne(Perform(s, p.plan[..n]), p.plan[n]);
    }
  }
}
