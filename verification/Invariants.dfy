// What every step of the rotation protocol keeps. Each predicate takes only the
// records it is about, so a step that leaves them alone keeps it for free.
module Invariants {
  import opened Wrappers
  import opened StateMachine
  import opened Journal
  import Outbox
  import opened Budget
  import opened Protocol

  // ------------------------------------------------------------------ revisions

  predicate CurrentOrPast(auth: Option<StoredAuth>, past: set<Revision>, r: Revision) {
    (auth.Some? && auth.value.revision == r) || r in past
  }

  // Revisions are fresh, and a successor becomes current only after its source left.
  ghost predicate LineageOk(auth: Option<StoredAuth>, l: Lineage) {
    && (auth.Some? ==> auth.value.revision in l.used && auth.value.revision !in l.past && auth.value.revision != "")
    && l.past <= l.used && l.minted.Keys <= l.used
    && (forall t <- l.minted :: l.minted[t].revision == t && t != "" && l.minted[t].source in l.used
                                && l.minted[t].source != t)
    && (forall t <- l.minted :: CurrentOrPast(auth, l.past, t) ==> l.minted[t].source in l.past)
  }

  predicate Known(auth: Option<StoredAuth>, l: Lineage, r: Revision) {
    CurrentOrPast(auth, l.past, r) && r != ""
  }

  predicate KnownSuccessor(auth: Option<StoredAuth>, l: Lineage, s: Successor) {
    s.revision in l.minted && l.minted[s.revision] == s && Known(auth, l, s.source)
  }

  predicate JournalOrigin(auth: Option<StoredAuth>, l: Lineage, j: JournalFile) {
    j.HasContent() ==>
      && Known(auth, l, j.state.source)
      && (j.state.Rotated? ==> KnownSuccessor(auth, l, Successor(j.state.source, j.state.cookie, j.state.successor)))
  }

  predicate RetainedOrigin(auth: Option<StoredAuth>, l: Lineage, retained: Option<Successor>) {
    retained.Some? ==> KnownSuccessor(auth, l, retained.value)
  }

  function PhaseSource(phase: Phase): Option<Revision> {
    match phase
    case Sending(r, _) => Some(r)
    case InFlight(r) => Some(r)
    case Answered(r, _) => Some(r)
    case Installing(kept) => Some(kept.source)
    case Idle => None
  }

  function PhaseSuccessor(phase: Phase): Option<Successor> {
    match phase
    case Answered(r, Succeeded(cookie, successor)) => Some(Successor(r, cookie, successor))
    case Installing(kept) => Some(kept)
    case _ => None
  }

  predicate PhaseOrigin(auth: Option<StoredAuth>, l: Lineage, phase: Phase) {
    && (PhaseSource(phase).Some? ==> Known(auth, l, PhaseSource(phase).value))
    && (PhaseSuccessor(phase).Some? ==> KnownSuccessor(auth, l, PhaseSuccessor(phase).value))
  }

  ghost predicate SpendOrigin(auth: Option<StoredAuth>, l: Lineage, spends: map<Revision, Spend>) {
    forall r <- spends :: CurrentOrPast(auth, l.past, r)
  }

  // While an import holds the lock nothing refers to the revision it installed.
  ghost predicate ImportIsNew(importing: bool, auth: Option<StoredAuth>, l: Lineage, j: JournalFile, phase: Phase,
                              retained: Option<Successor>, spends: map<Revision, Spend>)
  {
    importing ==>
      && auth.Some?
      && var i := auth.value.revision;
      && i !in l.minted && i !in spends
      && (forall t <- l.minted :: l.minted[t].source != i)
      && (j.HasContent() ==> j.state.source != i)
      && PhaseSource(phase) != Some(i)
      && (retained.Some? ==> retained.value.source != i)
  }

  ghost predicate Origins(w: World) {
    var auth, l := w.disk.auth, w.line;
    && LineageOk(auth, l)
    && JournalOrigin(auth, l, w.disk.journal)
    && RetainedOrigin(auth, l, w.proc.retained)
    && PhaseOrigin(auth, l, w.proc.phase)
    && SpendOrigin(auth, l, w.spending.spends)
    && ImportIsNew(w.proc.importing, auth, l, w.disk.journal, w.proc.phase, w.proc.retained, w.spending.spends)
  }

  predicate Reserves(a: Action) {
    a.Begin? || a.Retry? || a.Request? || a.Project? || a.Rerecord?
  }

  predicate Rewrites(a: Action) {
    a.MarkUnknown? || a.Stop? || a.MarkEnqueued?
  }

  predicate Drops(a: Action) {
    a.DropReserved? || a.DropProjected? || a.DropStale? || a.Supersede?
  }

  // Only these steps change which revision is current or which revisions exist.
  predicate MovesLineage(a: Action) {
    a.Answer? || a.Install? || a.Import? || a.Crash?
  }

  lemma ReservingKeepsOrigins(w: World, a: Action)
    requires Origins(w) && Enabled(w, a) && Reserves(a)
    ensures Origins(Apply(w, a))
  {
  }

  lemma CommitFileShape(j: JournalFile, source: Revision, answer: Answer, now: int, reason: string,
                        responseClass: Option<string>, readable: bool)
    ensures var file := CommitFile(j, source, answer, now, reason, responseClass, readable);
            && file.Stored? && !file.enqueued
            && file.state == match answer
               { case Succeeded(cookie, successor) => Rotated(source, cookie, successor)
                 case Refused => Rejected(source, reason)
                 case Unclear(_) => OutcomeUnknown(source, reason) }
  {
  }

  lemma ForgettingIsLocal(s: Spending, r: Revision, kind: AttemptKind, deadline: int)
    ensures var f := s.Forgotten(r, kind, deadline);
            && s.spends.Keys <= f.spends.Keys <= s.spends.Keys + {r}
            && (forall x <- s.spends :: x != r ==> f.spends[x] == s.spends[x])
  {
    if kind.Recovery? {
      assert s.Forgotten(r, kind, deadline).spends == s.Reopened(r, deadline).spends;
    }
  }

  lemma CommitKeepsOrigins(w: World, a: Action)
    requires Origins(w) && Enabled(w, a) && a.Commit?
    ensures Origins(Apply(w, a))
  {
    hide CommitFile, KeysInJournal, Spending.Forgotten;
    var v, phase, auth, l := Apply(w, a), w.proc.phase, w.disk.auth, w.line;
    CommitFileShape(w.disk.journal, phase.source, phase.answer, a.now, a.reason, a.responseClass, a.readable);
    ForgettingIsLocal(w.spending, phase.source, KindOn(w.disk.journal), a.now + RECOVERY_WINDOW);
    assert JournalOrigin(auth, l, v.disk.journal);
    assert PhaseOrigin(auth, l, v.proc.phase);
    assert SpendOrigin(auth, l, v.spending.spends);
  }

  lemma RewritingKeepsOrigins(w: World, a: Action)
    requires Origins(w) && Enabled(w, a) && (Rewrites(a) || Drops(a))
    ensures Origins(Apply(w, a))
  {
  }

  lemma ProcessKeepsOrigins(w: World, a: Action)
    requires Origins(w) && Enabled(w, a) && !Reserves(a) && !Rewrites(a) && !Drops(a) && !MovesLineage(a)
             && !a.Commit?
    ensures Origins(Apply(w, a))
  {
  }

  lemma AnswerKeepsOrigins(w: World, a: Action)
    requires Origins(w) && Enabled(w, a) && a.Answer?
    ensures Origins(Apply(w, a))
  {
  }

  lemma InstallKeepsOrigins(w: World, a: Action)
    requires Origins(w) && Enabled(w, a) && a.Install?
    ensures Origins(Apply(w, a))
  {
  }

  lemma ImportKeepsOrigins(w: World, a: Action)
    requires Origins(w) && Enabled(w, a) && a.Import?
    ensures Origins(Apply(w, a))
  {
  }

  lemma CrashKeepsOrigins(w: World, a: Action)
    requires Origins(w) && Enabled(w, a) && a.Crash?
    ensures Origins(Apply(w, a))
  {
  }

  lemma StepKeepsOrigins(w: World, a: Action)
    requires Origins(w) && Enabled(w, a)
    ensures Origins(Apply(w, a))
  {
    hide Apply, Enabled, Origins;
    if Reserves(a) { ReservingKeepsOrigins(w, a); }
    else if Rewrites(a) || Drops(a) { RewritingKeepsOrigins(w, a); }
    else if a.Commit? { CommitKeepsOrigins(w, a); }
    else if a.Answer? { AnswerKeepsOrigins(w, a); }
    else if a.Install? { InstallKeepsOrigins(w, a); }
    else if a.Import? { ImportKeepsOrigins(w, a); }
    else if a.Crash? { CrashKeepsOrigins(w, a); }
    else { ProcessKeepsOrigins(w, a); }
  }

  // -------------------------------------------------------------------- control

  predicate RequestedBy(j: JournalFile, owner: RefreshOwner, r: Revision) {
    j.Stored? && j.state == Requested(r) && !j.enqueued && AttemptOwner(j.attempt) == Some(owner)
  }

  predicate RotatedUnflagged(j: JournalFile, s: Successor) {
    j.Stored? && j.state == s.State() && !j.enqueued
  }

  predicate InExchange(phase: Phase) {
    phase.Sending? || phase.InFlight? || phase.Answered?
  }

  // An exchange in flight is about the durable REQUESTED journal of this process, and a
  // successor in memory is about that journal or about its own ROTATED one.
  predicate ControlOk(d: Disk, p: Process) {
    && (p.retained.Some? ==> p.phase.Idle?)
    && (InExchange(p.phase) && d.Current(p.phase.source) ==> RequestedBy(d.journal, p.owner, p.phase.source))
    && (p.Pending().Some? ==> SuccessorControl(d, p.owner, p.Pending().value))
  }

  predicate SuccessorControl(d: Disk, owner: RefreshOwner, s: Successor) {
    && (d.Current(s.source) ==> RequestedBy(d.journal, owner, s.source) || RotatedUnflagged(d.journal, s))
    && (d.Current(s.revision) ==> d.journal == NoJournal || (d.journal.Stored? && d.journal.state == s.State()))
  }

  predicate WritesJournal(a: Action) {
    Reserves(a) || Rewrites(a) || Drops(a) || a.Commit?
  }

  lemma RewritingKeepsControl(w: World, a: Action)
    requires Origins(w) && ControlOk(w.disk, w.proc) && Enabled(w, a) && (a.Request? || a.Rerecord? || Rewrites(a))
    ensures ControlOk(Apply(w, a).disk, Apply(w, a).proc)
  {
    hide AttemptFor, KeysInJournal, WithContinuation;
  }

  lemma DroppingKeepsControl(w: World, a: Action)
    requires Origins(w) && ControlOk(w.disk, w.proc) && Enabled(w, a) && Drops(a)
    ensures ControlOk(Apply(w, a).disk, Apply(w, a).proc)
  {
    hide KeysInJournal;
  }

  // A write of the whole journal while no successor is pending and nothing is in flight.
  lemma ReservingKeepsControl(w: World, a: Action)
    requires Origins(w) && ControlOk(w.disk, w.proc) && Enabled(w, a) && (a.Begin? || a.Retry?)
    ensures ControlOk(Apply(w, a).disk, Apply(w, a).proc)
  {
    assert Apply(w, a).proc == w.proc;
    assert w.proc.Pending().None? && !InExchange(w.proc.phase);
  }

  lemma CommitKeepsControl(w: World, a: Action)
    requires Origins(w) && ControlOk(w.disk, w.proc) && Enabled(w, a) && a.Commit?
    ensures ControlOk(Apply(w, a).disk, Apply(w, a).proc)
  {
    hide CommitFile, KeysInJournal, Spending.Forgotten;
    var v, phase := Apply(w, a), w.proc.phase;
    CommitFileShape(w.disk.journal, phase.source, phase.answer, a.now, a.reason, a.responseClass, a.readable);
    if v.proc.Pending().Some? {
      assert SuccessorControl(v.disk, v.proc.owner, v.proc.Pending().value);
    }
  }

  lemma ProjectKeepsControl(w: World, a: Action)
    requires Origins(w) && ControlOk(w.disk, w.proc) && Enabled(w, a) && a.Project?
    ensures ControlOk(Apply(w, a).disk, Apply(w, a).proc)
  {
    hide AttemptFor, KeysInJournal, Spending.Forgotten;
    var v, s := Apply(w, a), w.proc.retained.value;
    assert SuccessorControl(v.disk, v.proc.owner, s);
  }

  lemma OtherStepKeepsControl(w: World, a: Action)
    requires Origins(w) && ControlOk(w.disk, w.proc) && Enabled(w, a) && !WritesJournal(a)
    ensures ControlOk(Apply(w, a).disk, Apply(w, a).proc)
  {
    if a.Install? && a.o.Lands() {
      assert w.disk.journal.state.successor !in w.line.past;
    }
  }

  lemma StepKeepsControl(w: World, a: Action)
    requires Origins(w) && ControlOk(w.disk, w.proc) && Enabled(w, a)
    ensures ControlOk(Apply(w, a).disk, Apply(w, a).proc)
  {
    hide Apply, Enabled, Origins, ControlOk;
    if a.Begin? || a.Retry? { ReservingKeepsControl(w, a); }
    else if a.Request? || a.Rerecord? || Rewrites(a) { RewritingKeepsControl(w, a); }
    else if Drops(a) { DroppingKeepsControl(w, a); }
    else if a.Commit? { CommitKeepsControl(w, a); }
    else if a.Project? { ProjectKeepsControl(w, a); }
    else { OtherStepKeepsControl(w, a); }
  }

  // -------------------------------------------------------------------- closure

  // The two shapes of corrupt journal the coordinator can write: a stop record that
  // kept its not-before time, and a migrated in-flight request written back under v3.
  predicate CorruptShape(state: RotationState, a: RotationAttempt) {
    state.OutcomeUnknown? && a.IsStopped() && (a.nextAttemptAt.Some? || a.cap != TOTAL_DISPATCH_CAP)
  }

  // What ParseV2 can hand over (V2MigrationIsConservative).
  predicate MigratedShape(state: RotationState, a: RotationAttempt) {
    && !state.Ready? && !state.Requested? && state.source != ""
    && a.kind.Normal? && !a.IsScheduled()
    && (state.OutcomeUnknown? ==> a.IsStopped())
    && (Readable(state, a)
        || (state.OutcomeUnknown? && a.nextAttemptAt.None? && a.cap != TOTAL_DISPATCH_CAP))
  }

  predicate ClosureOk(j: JournalFile) {
    match j
    case NoJournal => true
    case Garbage => true
    case Migrated(state, _, a) => MigratedShape(state, a)
    case Stored(state, enqueued, a) =>
      && !state.Ready? && state.source != ""
      && (enqueued ==> state.Terminal())
      && (Readable(state, a) || CorruptShape(state, a))
      && (state.Active() || a.IsScheduled() ==> Funded(a))
  }

  // An attempt a commit or projection carries over, from whichever journal it reads.
  lemma CarriedAttempt(j: JournalFile, source: Revision, readable: bool)
    requires ClosureOk(j) && source != ""
    requires j.Stored? && j.state.source == source ==> j.state.Requested? || j.state.Rotated?
    requires j.Migrated? ==> j.state.source != source
    ensures var a := AttemptFor(j, source, readable);
            && AttemptIsValid(a) && a.continuation.None? && a.nextAttemptAt.None? && a.stopReason.None?
            && (j.Stored? && j.state == Requested(source) ==> Funded(a) && (readable ==> a == j.attempt))
  {
  }

  lemma CarriedAttemptIsReadable(a: RotationAttempt, state: RotationState, lane: Lane, deadline: int, now: int,
                                 responseClass: Option<string>)
    requires AttemptIsValid(a) && a.continuation.None? && a.nextAttemptAt.None? && a.stopReason.None?
    requires state.Terminal() && state.source != ""
    ensures Readable(state, WithoutOwner(a))
    ensures state.OutcomeUnknown? ==>
              Readable(state, WithContinuation(a, lane, deadline, now).(responseClass := responseClass))
    ensures Funded(a) ==> Funded(WithContinuation(a, lane, deadline, now).(responseClass := responseClass))
  {
    SchedulingKeepsTheBudget(a, lane, deadline, now);
    if state.OutcomeUnknown? {
      SchedulingIsReadable(a, lane, deadline, now, state.source, state.reason);
    }
  }

  lemma CommitKeepsClosure(w: World, a: Action)
    requires Origins(w) && ControlOk(w.disk, w.proc) && ClosureOk(w.disk.journal) && Enabled(w, a) && a.Commit?
    ensures ClosureOk(Apply(w, a).disk.journal)
  {
    hide KeysInJournal, Spending.Forgotten, AttemptFor, WithContinuation, LineageOk, Readable;
    var j, r, answer := w.disk.journal, w.proc.phase.source, w.proc.phase.answer;
    assert r != "";
    CarriedAttempt(j, r, a.readable);
    var attempt := AttemptFor(j, r, a.readable);
    CommitFileShape(j, r, answer, a.now, a.reason, a.responseClass, a.readable);
    var file := CommitFile(j, r, answer, a.now, a.reason, a.responseClass, a.readable);
    CarriedAttemptIsReadable(attempt, file.state, if answer.Unclear? then answer.lane else SafeRetry,
                             a.now + RECOVERY_WINDOW, a.now, a.responseClass);
    assert Readable(file.state, file.attempt);
    assert ClosureOk(file);
  }

  lemma ProjectKeepsClosure(w: World, a: Action)
    requires Origins(w) && ControlOk(w.disk, w.proc) && ClosureOk(w.disk.journal) && Enabled(w, a)
    requires a.Project? || a.Rerecord?
    ensures ClosureOk(Apply(w, a).disk.journal)
  {
    hide KeysInJournal, Spending.Forgotten, AttemptFor, LineageOk, Readable, EventKey;
    var j, s := w.disk.journal, w.proc.retained.value;
    CarriedAttempt(j, s.source, a.readable);
    CarriedAttemptIsReadable(AttemptFor(j, s.source, a.readable), s.State(), SafeRetry, 0, 0, None);
  }

  lemma ReservingKeepsClosure(w: World, a: Action)
    requires Origins(w) && ClosureOk(w.disk.journal) && Enabled(w, a) && (a.Begin? || a.Retry? || a.Request?)
    ensures ClosureOk(Apply(w, a).disk.journal)
  {
    hide KeysInJournal, Spending.Reopened, Spending.Granted;
    if a.Retry? {
      RecoverySpendsTheCap(w.disk.journal.attempt, a.now);
    }
  }

  lemma RewritingKeepsClosure(w: World, a: Action)
    requires Origins(w) && ClosureOk(w.disk.journal) && Enabled(w, a) && Rewrites(a)
    ensures ClosureOk(Apply(w, a).disk.journal)
  {
    hide KeysInJournal, WithContinuation, StopRecord, EventKey;
    var j := w.disk.journal;
    if a.MarkUnknown? {
      SchedulingIsReadable(j.attempt, AmbiguityReplay, a.now + RECOVERY_WINDOW, a.now, j.state.source, a.reason);
      SchedulingKeepsTheBudget(j.attempt, AmbiguityReplay, a.now + RECOVERY_WINDOW, a.now);
    } else if a.Stop? {
      StopShape(j.state, j.attempt);
    }
  }

  lemma StopShape(state: RotationState, a: RotationAttempt)
    requires state.OutcomeUnknown? && state.source != ""
    ensures StopRecord(a).IsStopped() && StopRecord(a).nextAttemptAt == a.nextAttemptAt && StopRecord(a).cap == a.cap
    ensures Readable(state, a) ==> Readable(state, StopRecord(a)) || CorruptShape(state, StopRecord(a))
  {
    if Readable(state, a) {
      StopRecordIsReadableExactlyWhen(state, a);
    }
  }

  lemma StepKeepsClosure(w: World, a: Action)
    requires Origins(w) && ControlOk(w.disk, w.proc) && ClosureOk(w.disk.journal) && Enabled(w, a)
    ensures ClosureOk(Apply(w, a).disk.journal)
  {
    if a.Begin? || a.Retry? || a.Request? { ReservingKeepsClosure(w, a); }
    else if a.Project? || a.Rerecord? { ProjectKeepsClosure(w, a); }
    else if a.Commit? { CommitKeepsClosure(w, a); }
    else if Rewrites(a) { RewritingKeepsClosure(w, a); }
    else { assert Apply(w, a).disk.journal in {w.disk.journal, NoJournal}; }
  }

  // ----------------------------------------------------------------- every run

  ghost predicate Sound(w: World) {
    Origins(w) && ControlOk(w.disk, w.proc) && ClosureOk(w.disk.journal)
  }

  lemma StepKeepsSound(w: World, a: Action)
    requires Sound(w) && Enabled(w, a)
    ensures Sound(Apply(w, a))
  {
    hide Apply, Enabled, Origins, ControlOk, ClosureOk;
    StepKeepsOrigins(w, a);
    StepKeepsControl(w, a);
    StepKeepsClosure(w, a);
  }

  lemma {:induction false} RunKeepsSound(w: World, acts: seq<Action>)
    requires Sound(w) && Legal(w, acts)
    ensures Sound(Exec(w, acts))
    decreases |acts|
  {
    if acts != [] {
      var n := |acts| - 1;
      RunKeepsSound(w, acts[..n]);
      StepKeepsSound(Exec(w, acts[..n]), acts[n]);
    }
  }

  // A disk the service may start on: any credential, no journal, an unparsable one, or
  // one written by the previous release, and an outbox that already answers for the
  // outcome that journal says was enqueued.
  predicate StartDisk(d: Disk, accepted: set<string>) {
    var j := d.journal;
    && (d.auth.Some? ==> d.auth.value.revision != "")
    && !j.Stored?
    && (j.Migrated? ==>
          && MigratedShape(j.state, j.attempt)
          && (j.state.Rotated? ==> j.state.successor != "" && j.state.successor != j.state.source)
          && (j.state.Terminal() && j.enqueued ==>
                KeyOf(j.state) in accepted || KeyOf(j.state) in Outbox.Keys(d.outbox)))
    && Outbox.Unique(d.outbox)
  }

  function StartWorld(d: Disk, owner: RefreshOwner, accepted: set<string>): World {
    var current := if d.auth.Some? then {d.auth.value.revision} else {};
    var source := if d.journal.HasContent() then {d.journal.state.source} else {};
    var successor := if d.journal.HasContent() && d.journal.state.Rotated? then {d.journal.state.successor} else {};
    World(d,
          Process(false, owner, Idle, None),
          Lineage(current + source + successor, source - current,
                  map t | t in successor && d.journal.HasContent() && d.journal.state.Rotated? ::
                    Successor(d.journal.state.source, d.journal.state.cookie, t)),
          Spending(map[], {}),
          Outcomes(accepted, KeysInJournal(d.journal)))
  }

  lemma StartIsSound(d: Disk, owner: RefreshOwner, accepted: set<string>)
    requires StartDisk(d, accepted)
    ensures Sound(StartWorld(d, owner, accepted))
  {
  }

  // ------------------------------------------------------ the files behind the model

  // A stored journal reads back as the parser reads the payload that was written for it.
  lemma StoredJournalIsThePayload(state: RotationState, enqueued: bool, attempt: RotationAttempt)
    requires !state.Ready? && (enqueued ==> state.Terminal())
    ensures Stored(state, enqueued, attempt).Read() == ParseJournal(PayloadOf(state, enqueued, attempt))
  {
    JournalRoundTrip(state, enqueued, attempt);
  }

  // Every file of the previous version that loads has the shape a service may start on.
  lemma MigratedJournalIsThePayload(p: JournalPayload)
    requires p.version == Int(PREVIOUS_JOURNAL_VERSION) && ParseJournal(p).JournalLoaded?
    ensures var l := ParseJournal(p);
            MigratedShape(l.state, l.attempt) && Migrated(l.state, l.enqueued, l.attempt).Read() == l
  {
    V2MigrationIsConservative(p);
  }
}
