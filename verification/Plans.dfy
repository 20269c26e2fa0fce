// What each coordinator operation writes, in order, computed from the disk it finds
// (auth_session/coordinator.py). A failing write or a crash leaves a prefix of the plan.
module Plans {
  import opened Wrappers
  import opened StateMachine
  import opened Journal
  import Outbox
  import opened Budget
  import opened Protocol

  datatype Write =
    | PutAuth(auth: StoredAuth)
    | PutJournal(file: JournalFile)        // NoJournal deletes the file
    | PutOutbox(records: seq<Outbox.OutboxRecord>)
    | Deliver(key: string)                 // the sink accepts a record; nothing is written

  // The disk, and what the sink has accepted.
  datatype Snapshot = Snapshot(disk: Disk, accepted: set<string>) {
    function After(w: Write): Snapshot {
      match w
      case PutAuth(auth) => this.(disk := disk.(auth := Some(auth)))
      case PutJournal(file) => this.(disk := disk.(journal := file))
      case PutOutbox(records) => this.(disk := disk.(outbox := records))
      case Deliver(key) => this.(accepted := accepted + {key})
    }
  }

  type Plan = seq<Write>

  function Perform(s: Snapshot, plan: Plan): Snapshot
    decreases |plan|
  {
    if plan == [] then s else Perform(s.After(plan[0]), plan[1..])
  }

  // --------------------------------------------------------------- the outbox

  // _drain_outbox: every record loaded is offered once; accepted ones are acknowledged.
  function DrainPlan(pending: seq<Outbox.OutboxRecord>, outbox: seq<Outbox.OutboxRecord>, sink: string -> bool): Plan
    decreases |pending|
  {
    if pending == [] then []
    else if !sink(pending[0].key) then DrainPlan(pending[1..], outbox, sink)
    else
      var left := Outbox.Acknowledged(outbox, pending[0].key);
      [Deliver(pending[0].key), PutOutbox(left)] + DrainPlan(pending[1..], left, sink)
  }

  // enqueue_outcome
  function EnqueuePlan(d: Disk, state: RotationState): Plan
    requires state.Terminal()
  {
    if KeyOf(state) in Outbox.Keys(d.outbox) then [] else [PutOutbox(Outbox.Enqueued(d.outbox, Outbox.RecordOf(state)))]
  }

  // delete_journal
  function DeletePlan(d: Disk): Plan {
    if d.journal == NoJournal then [] else [PutJournal(NoJournal)]
  }

  // _record_terminal_outcome
  function RecordPlan(s: Snapshot, state: RotationState, enqueued: bool, attempt: RotationAttempt,
                      sink: string -> bool): Plan
    requires state.Terminal()
  {
    var marking := if enqueued then [] else EnqueuePlan(s.disk, state) + [PutJournal(Stored(state, true, attempt))];
    var marked := Perform(s, marking);
    var draining := DrainPlan(marked.disk.outbox, marked.disk.outbox, sink);
    var drained := Perform(marked, draining);
    marking + draining
    + (if state.Rotated? && KeyOf(state) !in Outbox.Keys(drained.disk.outbox) then DeletePlan(drained.disk) else [])
  }

  // _discard_rotation_state
  function DiscardPlan(d: Disk, state: RotationState, enqueued: bool): Plan {
    (if state.Terminal() && !enqueued then EnqueuePlan(d, state) else []) + DeletePlan(d)
  }

  // ------------------------------------------------------------------- startup

  const EXITED := "process exited after refresh dispatch"
  const INTERRUPTED := "interrupted after refresh dispatch"

  predicate OwnerAlive(attempt: RotationAttempt, alive: RefreshOwner -> bool) {
    AttemptOwner(attempt).Some? && alive(AttemptOwner(attempt).value)
  }

  // The journal a dead dispatch is marked with.
  function UnknownFile(source: Revision, reason: string, attempt: RotationAttempt, now: int): JournalFile {
    Stored(OutcomeUnknown(source, reason), false,
           WithContinuation(attempt, AmbiguityReplay, now + RECOVERY_WINDOW, now))
  }

  function InstalledAuth(state: RotationState): StoredAuth
    requires state.Rotated?
  {
    StoredAuth(state.successor, Cookie(state.cookie))
  }

  // _recover_startup
  function StartupPlan(s: Snapshot, now: int, alive: RefreshOwner -> bool, sink: string -> bool): Plan {
    if s.disk.auth.None? then []
    else
      var draining := DrainPlan(s.disk.outbox, s.disk.outbox, sink);
      draining + StartupJournalPlan(Perform(s, draining), now, alive, sink)
  }

  // _recover_startup_journal
  function StartupJournalPlan(s: Snapshot, now: int, alive: RefreshOwner -> bool, sink: string -> bool): Plan {
    var d := s.disk;
    var load := d.journal.Read();
    if !load.JournalLoaded? || load.state.Ready? || d.auth.None? then []
    else
      var state, enqueued, attempt := load.state, load.enqueued, load.attempt;
      if state.Rotated? && d.Current(state.successor) then RecordPlan(s, state, enqueued, attempt, sink)
      else if !d.Current(state.source) then DiscardPlan(d, state, enqueued)
      else match state
        case Rotated(_, _, _) => InstallPlan(s, state, enqueued, attempt, sink)
        case Reserved(_) => DeletePlan(d)
        case Requested(source) =>
          if OwnerAlive(attempt, alive) then []
          else MarkUnknownPlan(s, UnknownFile(source, EXITED, attempt, now), sink)
        case _ => RecordPlan(s, state, enqueued, attempt, sink)
  }

  // _recover_rotated: the compare-and-set leaves a credential that is not a cookie alone.
  function InstallPlan(s: Snapshot, state: RotationState, enqueued: bool, attempt: RotationAttempt,
                       sink: string -> bool): Plan
    requires state.Rotated? && s.disk.auth.Some?
  {
    if !s.disk.auth.value.credential.Cookie? then []
    else
      var write := PutAuth(InstalledAuth(state));
      [write] + RecordPlan(s.After(write), state, enqueued, attempt, sink)
  }

  function MarkUnknownPlan(s: Snapshot, file: JournalFile, sink: string -> bool): Plan
    requires file.Stored? && file.state.OutcomeUnknown?
  {
    [PutJournal(file)] + RecordPlan(s.After(PutJournal(file)), file.state, false, file.attempt, sink)
  }

  // ------------------------------------------------------------------- refresh

  // How an operation ends once all its writes succeeded: a credential, or one of the
  // errors the refresh loop distinguishes.
  datatype Outcome =
    | AuthRequired
    | StorageError
    | ReturnAuth(auth: StoredAuth)
    | WaitForRevision(source: Revision)
    | RecoveryRequired(source: Revision, lane: Lane, retryAfter: nat)
    | TerminalRevisionRequired(source: Revision)
    | Dispatch(auth: StoredAuth, kind: AttemptKind)
    | Superseded(current: Option<Revision>)
    | InvalidTransition

  datatype Planned = Planned(plan: Plan, outcome: Outcome) {
    function Following(first: Plan): Planned {
      Planned(first + plan, outcome)
    }
  }

  // _prepare_dispatch: both records are durable before the exchange begins.
  function DispatchPlan(auth: StoredAuth, attempt: RotationAttempt, owner: RefreshOwner): Planned {
    var owned := Owned(attempt, owner);
    Planned([PutJournal(Stored(Reserved(auth.revision), false, owned)),
             PutJournal(Stored(Requested(auth.revision), false, owned))],
            Dispatch(auth, attempt.kind))
  }

  // _recover_unknown
  function RecoverUnknownPlan(auth: StoredAuth, state: RotationState, attempt: RotationAttempt, now: int,
                              owner: RefreshOwner): Planned
    requires state.OutcomeUnknown?
  {
    match NextRecoveryAttempt(attempt, now)
    case None => Planned([PutJournal(Stored(state, false, StopRecord(attempt)))], WaitForRevision(state.source))
    case Some(next) =>
      var wait, lane := SecondsUntil(next.nextAttemptAt, now), attempt.continuation.value.lane;
      if wait > 0 then Planned([], RecoveryRequired(state.source, lane, wait))
      else if Step(state, AuthorizeRecoveryDispatch(AuthorizationOf(next, lane, now))).None? then
        Planned([], InvalidTransition)
      else DispatchPlan(auth, next, owner)
  }

  // The rest of _prepare once no journal stands in the way.
  function FirstDispatchPlan(s: Snapshot, auth: StoredAuth, expected: Option<Revision>, now: int, owner: RefreshOwner,
                             sink: string -> bool): Planned
  {
    var draining := DrainPlan(s.disk.outbox, s.disk.outbox, sink);
    (if expected.Some? && expected.value != auth.revision then Planned([], ReturnAuth(auth))
     else DispatchPlan(auth, FirstAttempt(auth.revision, now), owner)).Following(draining)
  }

  // _prepare, with _recover_or_wait inlined. `readable` is whether the journal file can be read.
  function PreparePlan(s: Snapshot, expected: Option<Revision>, now: int, owner: RefreshOwner,
                       alive: RefreshOwner -> bool, sink: string -> bool, readable: bool): Planned
  {
    var d := s.disk;
    if d.auth.None? || !d.auth.value.credential.Cookie? then Planned([], AuthRequired)
    else
      var auth := d.auth.value;
      var load := if readable then d.journal.Read() else JournalIoFailure;
      match load
      case JournalCorrupt => Planned([], StorageError)
      case JournalIoFailure => Planned([], StorageError)
      case JournalAbsent => FirstDispatchPlan(s, auth, expected, now, owner, sink)
      case JournalLoaded(state, enqueued, attempt, _) =>
        if state.Ready? then Planned([], StorageError)
        else if state.Rotated? && d.Current(state.successor) then
          Planned(RecordPlan(s, state, enqueued, attempt, sink), ReturnAuth(auth))
        else if !d.Current(state.source) then
          var discarding := DiscardPlan(d, state, enqueued);
          FirstDispatchPlan(Perform(s, discarding), auth, expected, now, owner, sink).Following(discarding)
        else RecoverMatchingPlan(s, auth, state, enqueued, attempt, expected, now, owner, alive, sink)
  }

  // _recover_matching_state
  function RecoverMatchingPlan(s: Snapshot, auth: StoredAuth, state: RotationState, enqueued: bool,
                               attempt: RotationAttempt, expected: Option<Revision>, now: int, owner: RefreshOwner,
                               alive: RefreshOwner -> bool, sink: string -> bool): Planned
    requires !state.Ready? && s.disk.auth == Some(auth) && auth.credential.Cookie?
  {
    match state
    case Rotated(_, _, _) =>
      Planned(InstallPlan(s, state, enqueued, attempt, sink), ReturnAuth(InstalledAuth(state)))
    case Reserved(_) =>
      var deleting := DeletePlan(s.disk);
      FirstDispatchPlan(Perform(s, deleting), auth, expected, now, owner, sink).Following(deleting)
    case Requested(source) =>
      if OwnerAlive(attempt, alive) then Planned([], WaitForRevision(source))
      else
        var file := UnknownFile(source, INTERRUPTED, attempt, now);
        RecoverUnknownPlan(auth, file.state, file.attempt, now, owner).Following(MarkUnknownPlan(s, file, sink))
    case OutcomeUnknown(_, _) =>
      RecoverUnknownPlan(auth, state, attempt, now, owner).Following(RecordPlan(s, state, enqueued, attempt, sink))
    case Rejected(source, _) => Planned(RecordPlan(s, state, enqueued, attempt, sink), WaitForRevision(source))
  }

  // ------------------------------------------------------------ after the answer

  function SupersededOutcome(d: Disk): Outcome {
    match d.auth case None => AuthRequired case Some(auth) => ReturnAuth(auth)
  }

  // _commit_success, _commit_rejected and _commit_unknown
  function CommitPlan(s: Snapshot, source: Revision, answer: Answer, now: int, reason: string,
                      responseClass: Option<string>, readable: bool, sink: string -> bool): Planned
  {
    if !s.disk.Current(source) then Planned([], SupersededOutcome(s.disk))
    else
      var file := CommitFile(s.disk.journal, source, answer, now, reason, responseClass, readable);
      var written := s.After(PutJournal(file));
      match answer
      case Succeeded(cookie, successor) =>
        (if !s.disk.auth.value.credential.Cookie? then Planned([], SupersededOutcome(s.disk))
         else Planned(InstallPlan(written, file.state, false, file.attempt, sink),
                      ReturnAuth(InstalledAuth(file.state))))
        .Following([PutJournal(file)])
      case Refused =>
        Planned([PutJournal(file)] + RecordPlan(written, file.state, false, file.attempt, sink),
                TerminalRevisionRequired(source))
      case Unclear(lane) =>
        Planned([PutJournal(file)] + RecordPlan(written, file.state, false, file.attempt, sink),
                if file.attempt.IsStopped() then TerminalRevisionRequired(source)
                  else RecoveryRequired(source, lane, 0))
  }

  // project_retained_successor
  function ProjectPlan(s: Snapshot, kept: Successor, readable: bool, sink: string -> bool): Planned {
    var d := s.disk;
    var attempt := WithoutOwner(AttemptFor(d.journal, kept.source, readable));
    if d.Current(kept.revision) then
      Planned(RecordPlan(s, kept.State(), false, attempt, sink), ReturnAuth(d.auth.value))
    else if !d.Current(kept.source) then
      Planned([], Superseded(if d.auth.Some? then Some(d.auth.value.revision) else None))
    else
      var write := PutJournal(Stored(kept.State(), false, attempt));
      (if !d.auth.value.credential.Cookie? then Planned([], Superseded(Some(kept.source)))
       else Planned(InstallPlan(s.After(write), kept.State(), false, attempt, sink),
                    ReturnAuth(InstalledAuth(kept.State()))))
      .Following([write])
  }

  // import_credential
  function ImportPlan(d: Disk, imported: StoredAuth, readable: bool): Plan {
    var load := if readable then d.journal.Read() else JournalIoFailure;
    [PutAuth(imported)]
    + (if load.JournalLoaded? && load.state.Terminal() && !load.enqueued then EnqueuePlan(d, load.state) else [])
    + DeletePlan(d)
  }
}
