// The cookie-rotation protocol as atomic steps over the disk (credential, journal,
// outbox) and one refresher process. Every durable write, every send, every answer,
// import and crash is one Action; all nondeterminism is in the action's parameters,
// so a run is a legal sequence of actions.
module Protocol {
  import opened Wrappers
  import opened StateMachine
  import opened Journal
  import opened Outbox
  import opened Budget

  datatype Credential = Cookie(header: string) | Bearer(token: string)
  datatype StoredAuth = StoredAuth(revision: Revision, credential: Credential)

  // The journal file by content. `Migrated` is a v2 file; `Garbage` cannot be parsed.
  datatype JournalFile =
    | NoJournal
    | Stored(state: RotationState, enqueued: bool, attempt: RotationAttempt)
    | Migrated(state: RotationState, enqueued: bool, attempt: RotationAttempt)
    | Garbage
  {
    predicate HasContent() {
      (Stored? || Migrated?) && !state.Ready?
    }

    predicate HasTerminal() {
      HasContent() && state.Terminal()
    }

    // load_journal without a read fault; JournalRoundTrip ties it to the parser.
    function Read(): JournalLoad {
      match this
      case NoJournal => JournalAbsent
      case Garbage => JournalCorrupt
      case Stored(s, e, a) => if Readable(s, a) then JournalLoaded(s, e, a, false) else JournalCorrupt
      case Migrated(s, e, a) => JournalLoaded(s, e, a, true)
    }

    predicate Loads() {
      Read().JournalLoaded?
    }
  }

  // A successful exchange's outcome: the cookie that replaces `source`, under its new revision.
  datatype Successor = Successor(source: Revision, cookie: string, revision: Revision) {
    function State(): RotationState {
      Rotated(source, cookie, revision)
    }
  }

  datatype Answer = Succeeded(cookie: string, successor: Revision) | Refused | Unclear(lane: Lane)

  // Where the single refresher process is between its file-lock sections.
  datatype Phase =
    | Idle
    | Sending(source: Revision, kind: AttemptKind)
    | InFlight(source: Revision)
    | Answered(source: Revision, answer: Answer)
    | Installing(kept: Successor)

  // Numbers of dispatches by kind.
  datatype Counts = Counts(first: int, safe: int, validation: int, ambiguity: int) {
    function Total(): int {
      first + safe + validation + ambiguity
    }

    function Of(kind: AttemptKind): int {
      match kind
      case Normal => first
      case Recovery(SafeRetry) => safe
      case Recovery(ValidationRecovery) => validation
      case Recovery(AmbiguityReplay) => ambiguity
    }

    function Plus(kind: AttemptKind): Counts {
      match kind
      case Normal => this.(first := first + 1)
      case Recovery(SafeRetry) => this.(safe := safe + 1)
      case Recovery(ValidationRecovery) => this.(validation := validation + 1)
      case Recovery(AmbiguityReplay) => this.(ambiguity := ambiguity + 1)
    }

    function Add(other: Counts): Counts {
      Counts(first + other.first, safe + other.safe, validation + other.validation, ambiguity + other.ambiguity)
    }

    predicate Within(other: Counts) {
      first <= other.first && safe <= other.safe && validation <= other.validation && ambiguity <= other.ambiguity
    }
  }

  const NONE := Counts(0, 0, 0, 0)
  const ONE_FIRST := Counts(1, 0, 0, 0)

  function CountsOf(a: RotationAttempt): Counts {
    Counts(a.dispatchCount - a.Retries(), a.safeRetries, a.validationRetries, a.ambiguityReplays)
  }

  // History of one revision's budget: what its journal granted since it was last
  // opened, what was sent since, what was sent before, and the deadline it opened with.
  datatype Spend = Spend(granted: Counts, sent: Counts, earlier: int, deadline: int) {
    function Total(): int {
      earlier + sent.Total()
    }
  }

  // The three durable records.
  datatype Disk = Disk(auth: Option<StoredAuth>, journal: JournalFile, outbox: seq<OutboxRecord>) {
    predicate Current(revision: Revision) {
      auth.Some? && auth.value.revision == revision
    }
  }

  // Who holds the file lock, and the one refresher process.
  datatype Process = Process(
    importing: bool,             // an import holds the file lock
    owner: RefreshOwner,         // identity of the running process
    phase: Phase,
    retained: Option<Successor>) // the in-memory buffer of the refresh loop
  {
    // The successor held by a commit in progress or by the loop's buffer.
    function Pending(): Option<Successor> {
      if phase.Installing? then Some(phase.kept) else retained
    }

    // The loop does one thing at a time, and lock sections exclude a running import.
    predicate AtRest() {
      !importing && phase.Idle? && retained.None?
    }
  }

  // History of revisions.
  datatype Lineage = Lineage(
    used: set<Revision>,                 // ever imported or minted
    past: set<Revision>,                 // were current and were replaced
    minted: map<Revision, Successor>)    // successors by their revision

  // History of budgets.
  datatype Spending = Spending(
    spends: map<Revision, Spend>,
    restarted: set<Revision>)            // revisions whose durable budget was forgotten
  {
    function Of(revision: Revision): Spend {
      if revision in spends then spends[revision] else Spend(NONE, NONE, 0, 0)
    }

    // Everything ever sent for a revision.
    function TotalSent(revision: Revision): int {
      if revision in spends then spends[revision].Total() else 0
    }

    // The durable budget starts over.
    function Reopened(revision: Revision, deadline: int): Spending {
      this.(spends := spends[revision := Spend(ONE_FIRST, NONE, TotalSent(revision), deadline)])
    }

    function Granted(revision: Revision, attempt: RotationAttempt): Spending {
      this.(spends := spends[revision := Of(revision).(granted := CountsOf(attempt))])
    }

    function Sent(revision: Revision, kind: AttemptKind): Spending {
      this.(spends := spends[revision := Of(revision).(sent := Of(revision).sent.Plus(kind))])
    }

    // Scheduling over a journal that could not be read writes the default attempt: a first
    // dispatch keeps its counts under a new deadline, a recovery loses its budget.
    function Forgotten(revision: Revision, kind: AttemptKind, deadline: int): Spending {
      if kind.Normal? then this.(spends := spends[revision := Of(revision).(deadline := deadline)])
      else Spending(Reopened(revision, deadline).spends, restarted + {revision})
    }

    // Deleting the reservation of a recovery loses its budget, once anything was sent under it.
    function Dropped(revision: Revision, kind: AttemptKind): Spending {
      if kind.Recovery? && TotalSent(revision) > 0 then this.(restarted := restarted + {revision}) else this
    }
  }

  // History of outcomes: what the sink accepted and what was ever durable in a readable journal.
  datatype Outcomes = Outcomes(accepted: set<string>, journalled: set<string>)

  // Disk and process, with history the program never reads.
  datatype World = World(disk: Disk, proc: Process, line: Lineage, spending: Spending, outcomes: Outcomes)

  datatype Action =
    | Begin(now: int, o: WriteOutcome)
    | Retry(now: int, o: WriteOutcome)
    | Request(o: WriteOutcome)
    | Send
    | Answer(answer: Answer)
    | Commit(now: int, reason: string, responseClass: Option<string>, readable: bool, o: WriteOutcome)
    | Abandon(fault: bool)
    | Install(o: WriteOutcome)
    | Retain
    | Finish
    | Project(readable: bool, o: WriteOutcome)
    | Rerecord(readable: bool, o: WriteOutcome)
    | Forget(fault: bool)
    | MarkUnknown(now: int, reason: string, o: WriteOutcome)
    | Stop(now: int, o: WriteOutcome)
    | Enqueue(record: OutboxRecord, o: WriteOutcome)
    | MarkEnqueued(o: WriteOutcome)
    | Accept(key: string)
    | Acknowledge(key: string, o: WriteOutcome)
    | DropReserved(o: WriteOutcome)
    | DropProjected(o: WriteOutcome)
    | DropStale(o: WriteOutcome)
    | Import(imported: StoredAuth, o: WriteOutcome)
    | Supersede(seen: bool, o: WriteOutcome)
    | ImportEnds
    | Unwind
    | Crash(newOwner: RefreshOwner)

  // --------------------------------------------------------------- ingredients

  // _attempt_for_source: the journalled attempt, or the default when the journal
  // cannot be read or is about another revision.
  function AttemptFor(journal: JournalFile, source: Revision, readable: bool): RotationAttempt {
    var load := if readable then journal.Read() else JournalIoFailure;
    if load.JournalLoaded? && !load.state.Ready? && load.state.source == source then load.attempt
    else FreshAttempt(source, 1)
  }

  function KeysInJournal(journal: JournalFile): set<string> {
    var load := journal.Read();
    if load.JournalLoaded? && load.state.Terminal() then {KeyOf(load.state)} else {}
  }

  function WithJournal(w: World, journal: JournalFile, o: WriteOutcome): World {
    if o.Lands()
    then w.(disk := w.disk.(journal := journal),
            outcomes := w.outcomes.(journalled := w.outcomes.journalled + KeysInJournal(journal)))
    else w
  }

  // The journal a commit writes for an answered exchange.
  function CommitFile(journal: JournalFile, source: Revision, answer: Answer, now: int, reason: string,
                      responseClass: Option<string>, readable: bool): JournalFile
  {
    var attempt := AttemptFor(journal, source, readable);
    match answer
    case Succeeded(cookie, successor) => Stored(Rotated(source, cookie, successor), false, WithoutOwner(attempt))
    case Refused => Stored(Rejected(source, reason), false, WithoutOwner(attempt))
    case Unclear(lane) =>
      Stored(OutcomeUnknown(source, reason), false,
             WithContinuation(attempt, lane, now + RECOVERY_WINDOW, now).(responseClass := responseClass))
  }

  // The journal a retained successor's projection writes.
  function ProjectionFile(journal: JournalFile, s: Successor, enqueued: bool, readable: bool): JournalFile {
    Stored(s.State(), enqueued, WithoutOwner(AttemptFor(journal, s.source, readable)))
  }

  predicate ContentIsCurrent(d: Disk) {
    d.journal.HasContent() && d.Current(d.journal.state.source)
  }

  // --------------------------------------------------------------------- steps

  predicate Enabled(w: World, a: Action) {
    var d, p := w.disk, w.proc;
    var j := d.journal;
    match a
    case Begin(now, o) =>
      p.AtRest() && OwnerIsValid(p.owner) && d.auth.Some? && d.auth.value.credential.Cookie? && j == NoJournal
    case Retry(now, o) =>
      p.AtRest() && OwnerIsValid(p.owner) && ContentIsCurrent(d) && j.state.OutcomeUnknown? && j.enqueued
      && NextRecoveryAttempt(j.attempt, now).Some? && SecondsUntil(j.attempt.nextAttemptAt, now) == 0
    case Request(o) =>
      p.AtRest() && j.Stored? && ContentIsCurrent(d) && j.state.Reserved? && AttemptOwner(j.attempt) == Some(p.owner)
    case Send => p.phase.Sending?
    case Answer(answer) =>
      p.phase.InFlight? && (answer.Succeeded? ==> answer.successor !in w.line.used && answer.successor != "")
    case Commit(now, reason, responseClass, readable, o) =>
      !p.importing && p.phase.Answered? && d.Current(p.phase.source)
    case Abandon(fault) => p.phase.Answered? && (fault || !d.Current(p.phase.source))
    case Install(o) =>
      !p.importing && ContentIsCurrent(d) && j.state.Rotated? && d.auth.value.credential.Cookie?
    case Retain => p.phase.Installing?
    case Finish =>
      p.phase.Installing?
      && (!d.Current(p.phase.kept.source) || (j.HasContent() && j.state == p.phase.kept.State()))
    case Project(readable, o) =>
      !p.importing && p.phase.Idle? && p.retained.Some? && d.Current(p.retained.value.source)
    case Rerecord(readable, o) =>
      !p.importing && p.phase.Idle? && p.retained.Some? && d.Current(p.retained.value.revision)
      && KeyOf(p.retained.value.State()) in Keys(d.outbox)
    case Forget(fault) =>
      p.phase.Idle? && p.retained.Some? && (fault || !d.Current(p.retained.value.source))
    case MarkUnknown(now, reason, o) =>
      !p.importing && ContentIsCurrent(d) && j.state.Requested? && AttemptOwner(j.attempt) != Some(p.owner)
    case Stop(now, o) =>
      p.AtRest() && ContentIsCurrent(d) && j.state.OutcomeUnknown? && j.enqueued
      && NextRecoveryAttempt(j.attempt, now).None?
    case Enqueue(record, o) =>
      (j.HasTerminal() && record == RecordOf(j.state))
      || (p.retained.Some? && record == RecordOf(p.retained.value.State()))
    case MarkEnqueued(o) =>
      !p.importing && j.Loads() && j.HasTerminal() && KeyOf(j.state) in Keys(d.outbox)
      && (j.state.Rotated? ==> d.Current(j.state.successor))
    case Accept(key) => key in Keys(d.outbox)
    case Acknowledge(key, o) => !p.importing && key in w.outcomes.accepted
    case DropReserved(o) => p.AtRest() && ContentIsCurrent(d) && j.state.Reserved?
    case DropProjected(o) =>
      !p.importing && j.HasContent() && j.state.Rotated? && d.Current(j.state.successor)
      && j.enqueued && KeyOf(j.state) !in Keys(d.outbox)
    case DropStale(o) =>
      p.AtRest() && d.auth.Some? && j.Loads() && j.HasContent() && !d.Current(j.state.source)
      && !(j.state.Rotated? && d.Current(j.state.successor))
      && (j.state.Terminal() && !j.enqueued ==> KeyOf(j.state) in Keys(d.outbox))
    case Import(imported, o) => !p.importing && imported.revision !in w.line.used && imported.revision != ""
    case Supersede(seen, o) =>
      p.importing
      && (seen && j.Read().JournalLoaded? && j.state.Terminal() && !j.enqueued ==> KeyOf(j.state) in Keys(d.outbox))
    case ImportEnds => p.importing
    case Unwind => true
    case Crash(newOwner) => OwnerIsValid(newOwner)
  }

  // A commit that schedules a recovery without having read the journal it replaces.
  predicate SchedulesBlindly(w: World, a: Action) {
    a.Commit? && !a.readable && a.o.Lands() && w.proc.phase.Answered? && w.proc.phase.answer.Unclear?
  }

  // The kind of dispatch the journal is about.
  function KindOn(j: JournalFile): AttemptKind {
    if j.HasContent() then j.attempt.kind else Normal
  }

  function Apply(w: World, a: Action): World
    requires Enabled(w, a)
  {
    var d, p, l, s := w.disk, w.proc, w.line, w.spending;
    var j := d.journal;
    match a
    case Begin(now, o) =>
      var r := d.auth.value.revision;
      WithJournal(w, Stored(Reserved(r), false, Owned(FirstAttempt(r, now), p.owner)), o)
      .(spending := if o.Lands() then s.Reopened(r, now + RECOVERY_WINDOW) else s)
    case Retry(now, o) =>
      var r, attempt := j.state.source, Owned(NextRecoveryAttempt(j.attempt, now).value, p.owner);
      WithJournal(w, Stored(Reserved(r), false, attempt), o)
      .(spending := if o.Lands() then s.Granted(r, attempt) else s)
    case Request(o) =>
      WithJournal(w, Stored(Requested(j.state.source), false, j.attempt), o)
      .(proc := p.(phase := if o.Done? then Sending(j.state.source, j.attempt.kind) else p.phase))
    case Send =>
      w.(proc := p.(phase := InFlight(p.phase.source)), spending := s.Sent(p.phase.source, p.phase.kind))
    case Answer(answer) =>
      var r := p.phase.source;
      w.(proc := p.(phase := Answered(r, answer)),
         line := if !answer.Succeeded? then l
                 else l.(used := l.used + {answer.successor},
                         minted := l.minted[answer.successor := Successor(r, answer.cookie, answer.successor)]))
    case Commit(now, reason, responseClass, readable, o) =>
      var r, answer := p.phase.source, p.phase.answer;
      WithJournal(w, CommitFile(j, r, answer, now, reason, responseClass, readable), o)
      .(spending := if SchedulesBlindly(w, a) then s.Forgotten(r, KindOn(j), now + RECOVERY_WINDOW) else s,
        proc := p.(phase := if answer.Succeeded? then Installing(Successor(r, answer.cookie, answer.successor))
                   else Idle))
    case Abandon(fault) => w.(proc := p.(phase := Idle))
    case Install(o) =>
      if !o.Lands() then w
      else w.(disk := d.(auth := Some(StoredAuth(j.state.successor, Cookie(j.state.cookie)))),
              line := l.(past := l.past + {j.state.source}))
    case Retain => w.(proc := p.(phase := Idle, retained := Some(p.phase.kept)))
    case Finish => w.(proc := p.(phase := Idle))
    case Project(readable, o) =>
      WithJournal(w, ProjectionFile(j, p.retained.value, false, readable), o)
    case Rerecord(readable, o) => WithJournal(w, ProjectionFile(j, p.retained.value, true, readable), o)
    case Forget(fault) => w.(proc := p.(retained := None))
    case MarkUnknown(now, reason, o) =>
      WithJournal(w, Stored(OutcomeUnknown(j.state.source, reason), false,
                            WithContinuation(j.attempt, AmbiguityReplay, now + RECOVERY_WINDOW, now)), o)
    case Stop(now, o) => WithJournal(w, Stored(j.state, false, StopRecord(j.attempt)), o)
    case Enqueue(record, o) => if o.Lands() then w.(disk := d.(outbox := Enqueued(d.outbox, record))) else w
    case MarkEnqueued(o) => WithJournal(w, Stored(j.state, true, j.attempt), o)
    case Accept(key) => w.(outcomes := w.outcomes.(accepted := w.outcomes.accepted + {key}))
    case Acknowledge(key, o) => if o.Lands() then w.(disk := d.(outbox := Acknowledged(d.outbox, key))) else w
    case DropReserved(o) =>
      WithJournal(w, NoJournal, o)
      .(spending := if o.Lands() then s.Dropped(j.state.source, j.attempt.kind) else s)
    case DropProjected(o) => WithJournal(w, NoJournal, o)
    case DropStale(o) => WithJournal(w, NoJournal, o)
    case Import(imported, o) =>
      if !o.Lands() then w
      else w.(disk := d.(auth := Some(imported)), proc := p.(importing := o.Done?),
              line := l.(used := l.used + {imported.revision},
                         past := l.past + (if d.auth.Some? then {d.auth.value.revision} else {})))
    case Supersede(seen, o) => WithJournal(w, NoJournal, o).(proc := p.(importing := false))
    case ImportEnds => w.(proc := p.(importing := false))
    case Unwind => w.(proc := p.(phase := Idle, retained := None))
    case Crash(newOwner) =>
      w.(proc := p.(phase := Idle, retained := None, owner := newOwner))
  }

  // ---------------------------------------------------------------------- runs

  predicate Legal(w: World, acts: seq<Action>)
    decreases |acts|, 0
  {
    acts == [] || (var n := |acts| - 1; Legal(w, acts[..n]) && Enabled(Exec(w, acts[..n]), acts[n]))
  }

  function Exec(w: World, acts: seq<Action>): World
    requires Legal(w, acts)
    decreases |acts|, 1
  {
    if acts == [] then w else Apply(Exec(w, acts[..|acts| - 1]), acts[|acts| - 1])
  }

  lemma RunExtends(w: World, acts: seq<Action>, a: Action)
    requires Legal(w, acts) && Enabled(Exec(w, acts), a)
    ensures Legal(w, acts + [a]) && Exec(w, acts + [a]) == Apply(Exec(w, acts), a)
  {
    assert (acts + [a])[..|acts|] == acts;
  }
}
