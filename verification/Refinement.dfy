// The durable journal refines the pure state machine: whatever mix of refresh,
// recovery, startup, commit, projection and import code wrote it, the generation on
// disk only moves by its transitions.
module Refinement {
  import opened Wrappers
  import opened StateMachine
  import opened Journal
  import opened Outbox
  import opened Budget
  import opened Protocol
  import opened Invariants
  import Runs

  // The generation on disk: what the journal says, and READY for the current credential
  // when it says nothing.
  function Generation(d: Disk): RotationState {
    if d.journal.HasContent() then d.journal.state
    else Ready(if d.auth.Some? then d.auth.value.revision else "")
  }

  predicate Steps(before: RotationState, event: RotationEvent, after: RotationState) {
    Step(before, event).Some? && Step(before, event).value.state == after
  }

  // The event an action performs on the generation, when it performs one.
  function EventOf(w: World, a: Action): RotationEvent
    requires Enabled(w, a)
  {
    var j := w.disk.journal;
    match a
    case Begin(_, _) => RotationEvent.Begin(w.disk.auth.value.revision)
    case Retry(now, _) =>
      var lane := if j.attempt.IsScheduled() then j.attempt.continuation.value.lane else SafeRetry;
      AuthorizeRecoveryDispatch(AuthorizationOf(NextRecoveryAttempt(j.attempt, now).value, lane, now))
    case Request(_) => DispatchBegun
    case Commit(_, reason, _, _, _) =>
      (match w.proc.phase.answer
       case Succeeded(cookie, successor) => ExchangeSucceeded(cookie, successor)
       case Refused => ExchangeRejected(reason)
       case Unclear(_) => ExchangeOutcomeUnknown(reason))
    case Project(_, _) => ExchangeSucceeded(w.proc.retained.value.cookie, w.proc.retained.value.revision)
    case MarkUnknown(_, reason, _) => ExchangeOutcomeUnknown(reason)
    case DropReserved(_) => Recover
    case Import(imported, _) => Imported(imported.revision)
    case _ => Imported(if w.disk.auth.Some? then w.disk.auth.value.revision else "")
  }

  // A retained successor is recorded again although its journal was already deleted.
  predicate RecordsDeletedJournal(w: World, a: Action) {
    a.Rerecord? && a.o.Lands() && w.disk.journal == NoJournal
  }

  lemma ReservingRefines(w: World, a: Action)
    requires Sound(w) && Enabled(w, a) && (a.Begin? || a.Retry? || a.Request?)
    ensures Generation(Apply(w, a).disk) in {Generation(w.disk)}
            || Steps(Generation(w.disk), EventOf(w, a), Generation(Apply(w, a).disk))
  {
    hide Origins, ControlOk, KeysInJournal, Readable, Spending.Reopened, Spending.Granted;
    if a.Retry? {
      var attempt := w.disk.journal.attempt;
      assert attempt.IsScheduled() && Funded(attempt);
      BudgetAndGuardAgree(attempt, a.now);
    }
  }

  lemma CommitRefines(w: World, a: Action)
    requires Sound(w) && Enabled(w, a) && a.Commit?
    ensures Generation(Apply(w, a).disk) == Generation(w.disk)
            || Steps(Generation(w.disk), EventOf(w, a), Generation(Apply(w, a).disk))
  {
    hide Origins, ClosureOk, KeysInJournal, CommitFile, Spending.Forgotten;
    CommitFileShape(w.disk.journal, w.proc.phase.source, w.proc.phase.answer, a.now, a.reason, a.responseClass,
                    a.readable);
  }

  lemma DroppingRefines(w: World, a: Action)
    requires Sound(w) && Enabled(w, a) && Drops(a)
    ensures Generation(Apply(w, a).disk) == Generation(w.disk)
            || Steps(Generation(w.disk), EventOf(w, a), Generation(Apply(w, a).disk))
  {
    hide Origins, ControlOk, KeysInJournal, Readable, EventKey;
  }

  lemma RewritingRefines(w: World, a: Action)
    requires Sound(w) && Enabled(w, a) && (Rewrites(a) || a.Project?)
    ensures Generation(Apply(w, a).disk) == Generation(w.disk)
            || Steps(Generation(w.disk), EventOf(w, a), Generation(Apply(w, a).disk))
  {
    hide LineageOk, KeysInJournal, WithContinuation, StopRecord, AttemptFor, Readable, EventKey, Spending.Forgotten;
  }

  lemma OtherStepRefines(w: World, a: Action)
    requires Enabled(w, a) && !WritesJournal(a)
    ensures Generation(Apply(w, a).disk) == Generation(w.disk)
            || Steps(Generation(w.disk), EventOf(w, a), Generation(Apply(w, a).disk))
  {
    hide EventKey;
  }

  lemma RerecordRefines(w: World, a: Action)
    requires Sound(w) && Enabled(w, a) && a.Rerecord?
    ensures if RecordsDeletedJournal(w, a)
            then Generation(w.disk).Ready? && Generation(Apply(w, a).disk).Rotated?
            else Generation(Apply(w, a).disk) == Generation(w.disk)
  {
    hide Origins, ClosureOk, KeysInJournal, AttemptFor, EventKey;
  }

  lemma StepIsTransition(w: World, a: Action)
    requires Sound(w) && Enabled(w, a)
    ensures if RecordsDeletedJournal(w, a)
            then Generation(w.disk).Ready? && Generation(Apply(w, a).disk).Rotated?
            else Generation(Apply(w, a).disk) == Generation(w.disk)
                 || Steps(Generation(w.disk), EventOf(w, a), Generation(Apply(w, a).disk))
  {
    hide Apply, Enabled, Sound, Generation, EventOf, Steps;
    if a.Begin? || a.Retry? || a.Request? { ReservingRefines(w, a); }
    else if a.Commit? { CommitRefines(w, a); }
    else if Rewrites(a) || a.Project? { RewritingRefines(w, a); }
    else if Drops(a) { DroppingRefines(w, a); }
    else if a.Rerecord? { RerecordRefines(w, a); }
    else { OtherStepRefines(w, a); }
  }

  // The generation stays, or moves by the event of the action, which carries the action's own
  // cookie, reason, revision and spent budget.
  predicate Refines(w: World, a: Action)
    requires Enabled(w, a)
  {
    var before, after := Generation(w.disk), Generation(Apply(w, a).disk);
    before == after || Steps(before, EventOf(w, a), after)
  }

  // Any two consecutive durable generations are a stutter or the transition of the action
  // between them, except exactly when a journal that was already deleted is recorded again;
  // that is no transition at all.
  lemma EveryStepRefinesExcept(w: World, a: Action)
    requires Sound(w) && Enabled(w, a)
    ensures Refines(w, a) <==> !RecordsDeletedJournal(w, a)
    ensures RecordsDeletedJournal(w, a) ==>
              forall event :: !Steps(Generation(w.disk), event, Generation(Apply(w, a).disk))
  {
    hide Apply, Enabled, Sound, Generation, EventOf;
    StepIsTransition(w, a);
  }

  // ------------------------------------------------------------------ whole runs

  predicate NeverRecordsDeleted(w: World, acts: seq<Action>)
    requires Legal(w, acts)
    decreases |acts|
  {
    acts == [] || (var n := |acts| - 1;
                   NeverRecordsDeleted(w, acts[..n]) && !RecordsDeletedJournal(Exec(w, acts[..n]), acts[n]))
  }

  lemma {:induction false} ReplayExtends(state: RotationState, events: seq<RotationEvent>, event: RotationEvent)
    requires Replay(state, events).Some?
    ensures Replay(state, events + [event]) ==
            match Step(Replay(state, events).value, event) case None => None case Some(t) => Some(t.state)
    decreases |events|
  {
    if events == [] {
      assert Replay(state, [event]) ==
        match Step(state, event) { case None => None case Some(t) => Replay(t.state, []) };
    } else {
      ReplayExtends(Step(state, events[0]).value.state, events[1..], event);
      assert (events + [event])[1..] == events[1..] + [event];
    }
  }

  // The events of the actions that move the generation, in order.
  function EventsOf(w: World, acts: seq<Action>): seq<RotationEvent>
    requires Legal(w, acts)
    decreases |acts|
  {
    if acts == [] then []
    else
      var n := |acts| - 1;
      var v := Exec(w, acts[..n]);
      EventsOf(w, acts[..n])
      + (if Generation(Apply(v, acts[n]).disk) == Generation(v.disk) then [] else [EventOf(v, acts[n])])
  }

  // A whole run, crashes and imports included, is the replay of its own events in the pure
  // machine, ending in the generation on disk.
  lemma {:induction false} RunIsReplay(w: World, acts: seq<Action>)
    requires Sound(w) && Legal(w, acts) && NeverRecordsDeleted(w, acts)
    ensures Replay(Generation(w.disk), EventsOf(w, acts)) == Some(Generation(Exec(w, acts).disk))
    decreases |acts|
  {
    hide Apply, Enabled, Sound, Generation, EventOf, RecordsDeletedJournal;
    if acts != [] {
      var n := |acts| - 1;
      var v := Exec(w, acts[..n]);
      var events := EventsOf(w, acts[..n]);
      RunIsReplay(w, acts[..n]);
      RunKeepsSound(w, acts[..n]);
      StepIsTransition(v, acts[n]);
      assert Exec(w, acts) == Apply(v, acts[n]);
      if Generation(Apply(v, acts[n]).disk) != Generation(v.disk) {
        ReplayExtends(Generation(w.disk), events, EventOf(v, acts[n]));
      } else {
        assert events + [] == events;
      }
    }
  }

  // ------------------------------------------------------- the exception is reachable

  // A renewal whose last write, the deletion of its delivered journal, fails after the
  // file is gone; the loop then retains the successor and projects it again.
  function LateFailure(s: Successor, now: int): seq<Action> {
    var record := RecordOf(s.State());
    [Action.Begin(now, Done), Request(Done), Send, Answer(Succeeded(s.cookie, s.revision)),
     Commit(now, "", None, true, Done),
     Install(Done), Enqueue(record, Done), MarkEnqueued(Done), Accept(record.key), Acknowledge(record.key, Done),
     DropProjected(Failed(true)), Retain, Enqueue(record, Done)]
  }

  predicate LateFailureAt(k: nat, v: World, s: Successor, now: int) {
    var attempt := Owned(FirstAttempt(s.source, now), v.proc.owner);
    var spent := WithoutOwner(attempt);
    var current := if k <= 5 then s.source else s.revision;
    var record := RecordOf(s.State());
    && !v.proc.importing && OwnerIsValid(v.proc.owner) && (k <= 11 ==> v.proc.retained.None?)
    && v.disk.auth.Some? && v.disk.auth.value.revision == current && v.disk.auth.value.credential.Cookie?
    && (k <= 3 ==> s.revision !in v.line.used)
    && v.proc.phase == (match k
                        case 0 => Idle case 1 => Idle
                        case 2 => Sending(s.source, Normal) case 3 => InFlight(s.source)
                        case 4 => Answered(s.source, Succeeded(s.cookie, s.revision))
                        case _ => if k <= 11 then Installing(s) else Idle)
    && v.disk.journal == (match k
                          case 0 => NoJournal
                          case 1 => Stored(Reserved(s.source), false, attempt)
                          case _ => if k <= 4 then Stored(Requested(s.source), false, attempt)
                                    else if k <= 10 then Stored(s.State(), k >= 8, spent)
                                    else NoJournal)
    && (k == 7 || k == 8 || k == 9 ==> record.key in Keys(v.disk.outbox))
    && (k == 9 ==> record.key in v.outcomes.accepted)
    && (k == 10 ==> record.key !in Keys(v.disk.outbox))
    && (k >= 12 ==> v.proc.retained == Some(s))
    && (k == 13 ==> record.key in Keys(v.disk.outbox))
  }

  lemma ExchangeStepOfLateFailure(k: nat, v: World, s: Successor, now: int)
    requires k < 6 && LateFailureAt(k, v, s, now) && s.source != "" && s.revision != ""
    ensures Enabled(v, LateFailure(s, now)[k]) && LateFailureAt(k + 1, Apply(v, LateFailure(s, now)[k]), s, now)
  {
    hide KeysInJournal, Readable, EventKey, Keys;
    var a := LateFailure(s, now)[k];
    if k == 4 {
      RequestLoads(s.source, now, v.proc.owner);
    }
  }

  lemma RequestLoads(r: Revision, now: int, owner: RefreshOwner)
    requires r != "" && OwnerIsValid(owner)
    ensures var attempt := Owned(FirstAttempt(r, now), owner);
            Stored(Requested(r), false, attempt).Loads()
            && (forall cookie, t, enqueued :: Stored(Rotated(r, cookie, t), enqueued, WithoutOwner(attempt)).Loads())
  {
  }

  lemma RecordStepOfLateFailure(k: nat, v: World, s: Successor, now: int)
    requires 6 <= k < 10 && LateFailureAt(k, v, s, now) && s.source != "" && s.revision != ""
    ensures Enabled(v, LateFailure(s, now)[k]) && LateFailureAt(k + 1, Apply(v, LateFailure(s, now)[k]), s, now)
  {
    hide KeysInJournal, Readable, EventKey, Keys, FirstAttempt, Owned, WithoutOwner, Enqueued, Acknowledged;
    var record := RecordOf(s.State());
    if k == 6 {
      KeysAfterEnqueue(v.disk.outbox, record);
    } else if k == 7 {
      RequestLoads(s.source, now, v.proc.owner);
    } else if k == 9 {
      AcknowledgeRemovesOneKey(v.disk.outbox, record.key);
    }
  }

  lemma RetainStepOfLateFailure(k: nat, v: World, s: Successor, now: int)
    requires 10 <= k < 13 && LateFailureAt(k, v, s, now) && s.source != "" && s.revision != ""
    ensures Enabled(v, LateFailure(s, now)[k]) && LateFailureAt(k + 1, Apply(v, LateFailure(s, now)[k]), s, now)
  {
    hide KeysInJournal, Readable, EventKey, Keys, FirstAttempt, Owned, WithoutOwner, Enqueued, Acknowledged;
    KeysAfterEnqueue(v.disk.outbox, RecordOf(s.State()));
  }

  lemma DeletedJournalIsRecordedAgain(w: World, s: Successor, now: int) returns (acts: seq<Action>)
    requires Runs.Refreshable(w, s.source) && s.source != "" && s.revision != "" && s.revision !in w.line.used
    ensures Legal(w, acts)
    ensures Enabled(Exec(w, acts), Rerecord(true, Done)) && RecordsDeletedJournal(Exec(w, acts), Rerecord(true, Done))
  {
    acts := [];
    assert LateFailureAt(0, w, s, now);
    hide LateFailureAt, Enabled, Apply, Runs.Refreshable;
    for k := 0 to 13
      invariant Legal(w, acts) && LateFailureAt(k, Exec(w, acts), s, now)
    {
      if k < 6 { ExchangeStepOfLateFailure(k, Exec(w, acts), s, now); }
      else if k < 10 { RecordStepOfLateFailure(k, Exec(w, acts), s, now); }
      else { RetainStepOfLateFailure(k, Exec(w, acts), s, now); }
      RunExtends(w, acts, LateFailure(s, now)[k]);
      acts := acts + [LateFailure(s, now)[k]];
    }
    LateFailureEnds(Exec(w, acts), s, now);
  }

  lemma LateFailureEnds(v: World, s: Successor, now: int)
    requires LateFailureAt(13, v, s, now)
    ensures Enabled(v, Rerecord(true, Done)) && RecordsDeletedJournal(v, Rerecord(true, Done))
  {
  }
}
