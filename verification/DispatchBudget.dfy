// The write-ahead dispatch budget, over every run: what was sent for a revision never
// exceeds what its journal granted beforehand.
module DispatchBudget {
  import opened Wrappers
  import opened StateMachine
  import opened Journal
  import Outbox
  import opened Budget
  import opened Protocol
  import opened Invariants
  import opened Runs

  const LANE_LIMITS := Counts(1, SAFE_RETRY_LIMIT, VALIDATION_RETRY_LIMIT, AMBIGUITY_REPLAY_LIMIT)

  predicate WithinLimits(s: Spend, restarted: bool) {
    && NONE.Within(s.sent) && s.sent.Within(s.granted)
    && s.granted.Within(LANE_LIMITS) && s.granted.Total() <= TOTAL_DISPATCH_CAP
    && 0 <= s.earlier
    && (!restarted ==> s.earlier == 0)
  }

  // The durable record and the history agree on what was granted and until when.
  predicate Bound(a: RotationAttempt, r: Revision, spends: map<Revision, Spend>) {
    r in spends && spends[r].granted == CountsOf(a) && a.deadline == Some(spends[r].deadline)
  }

  // A reservation leaves room for exactly the dispatch it announces.
  predicate HasRoom(kind: AttemptKind, r: Revision, spends: map<Revision, Spend>) {
    && r in spends
    && spends[r].sent.Of(kind) + 1 <= spends[r].granted.Of(kind)
    && (kind.Normal? ==> spends[r].sent == NONE)
  }

  predicate JournalBudget(d: Disk, spends: map<Revision, Spend>) {
    var j := d.journal;
    && (j.Migrated? ==> spends == map[])
    && (j.Stored? && ContentIsCurrent(d) && (j.state.Active() || j.attempt.IsScheduled()) ==>
          Bound(j.attempt, j.state.source, spends))
    && (j.Stored? && ContentIsCurrent(d) && j.state.Reserved? ==> HasRoom(j.attempt.kind, j.state.source, spends))
    && (j.Stored? && ContentIsCurrent(d) && j.state.Active() && j.attempt.kind.Normal? ==>
        CountsOf(j.attempt) == ONE_FIRST)
  }

  predicate PhaseBudget(phase: Phase, spends: map<Revision, Spend>) {
    && (phase.Sending? ==> HasRoom(phase.kind, phase.source, spends))
    && (PhaseSource(phase).Some? ==> PhaseSource(phase).value in spends)
  }

  // With no journal about the current revision, nothing was sent for it, unless its
  // budget was forgotten.
  predicate QuietWithoutJournal(d: Disk, s: Spending) {
    d.auth.Some? && !ContentIsCurrent(d) && d.auth.value.revision in s.spends
      && d.auth.value.revision !in s.restarted ==>
      s.spends[d.auth.value.revision].Total() == 0
  }

  ghost predicate BudgetOk(d: Disk, p: Process, s: Spending) {
    && (forall r <- s.spends :: WithinLimits(s.spends[r], r in s.restarted))
    && JournalBudget(d, s.spends)
    && PhaseBudget(p.phase, s.spends)
    && QuietWithoutJournal(d, s)
    && (p.retained.Some? ==> p.retained.value.source in s.spends)
  }

  ghost predicate Budgeted(w: World) {
    BudgetOk(w.disk, w.proc, w.spending)
  }

  // What one step does to the history of budgets.
  function SpendingAfter(w: World, a: Action): Spending
    requires Enabled(w, a)
  {
    var s, j := w.spending, w.disk.journal;
    match a
    case Begin(now, o) => if o.Lands() then s.Reopened(w.disk.auth.value.revision, now + RECOVERY_WINDOW) else s
    case Retry(now, o) =>
      if o.Lands() then s.Granted(j.state.source, Owned(NextRecoveryAttempt(j.attempt, now).value, w.proc.owner)) else s
    case Send => s.Sent(w.proc.phase.source, w.proc.phase.kind)
    case Commit(now, _, _, _, _) =>
      if SchedulesBlindly(w, a) then s.Forgotten(w.proc.phase.source, KindOn(j), now + RECOVERY_WINDOW) else s
    case DropReserved(o) => if o.Lands() then s.Dropped(j.state.source, j.attempt.kind) else s
    case _ => s
  }

  lemma SpendingMoves(w: World, a: Action)
    requires Enabled(w, a)
    ensures Apply(w, a).spending == SpendingAfter(w, a)
  {
    hide Enabled, KeysInJournal, CommitFile, ProjectionFile, Readable, EventKey, Owned, NextRecoveryAttempt,
         FirstAttempt,
         Spending.Reopened, Spending.Granted, Spending.Sent, Spending.Forgotten, Spending.Dropped, Outbox.Keys,
         Outbox.Enqueued, Outbox.Acknowledged, StopRecord, WithContinuation;
  }

  // The first reservation of a revision opens its budget.
  lemma OpeningKeepsBudget(d: Disk, p: Process, s: Spending, r: Revision, now: int)
    requires BudgetOk(d, p, s) && d.journal == NoJournal && d.Current(r) && p.AtRest()
    ensures BudgetOk(d.(journal := Stored(Reserved(r), false, Owned(FirstAttempt(r, now), p.owner))), p,
                     s.Reopened(r, now + RECOVERY_WINDOW))
  {
    hide Journal.Readable, EventKey, KeysInJournal;
    var t := s.Reopened(r, now + RECOVERY_WINDOW);
    var opening := Spend(ONE_FIRST, NONE, s.TotalSent(r), now + RECOVERY_WINDOW);
    assert t.spends == s.spends[r := opening] && t.restarted == s.restarted;
    assert WithinLimits(opening, r in s.restarted);
    var attempt := Owned(FirstAttempt(r, now), p.owner);
    assert Bound(attempt, r, t.spends) && HasRoom(attempt.kind, r, t.spends);
  }

  lemma BeginKeepsBudget(w: World, a: Action)
    requires Budgeted(w) && Enabled(w, a) && a.Begin?
    ensures Budgeted(Apply(w, a))
  {
    hide KeysInJournal, BudgetOk, Owned, FirstAttempt, Spending.Reopened;
    OpeningKeepsBudget(w.disk, w.proc, w.spending, w.disk.auth.value.revision, a.now);
  }

  // A recovery reservation grants one more dispatch in its lane.
  lemma GrantingKeepsBudget(d: Disk, p: Process, s: Spending, now: int)
    requires BudgetOk(d, p, s) && d.journal.Stored? && ContentIsCurrent(d) && p.AtRest()
    requires Funded(d.journal.attempt) && NextRecoveryAttempt(d.journal.attempt, now).Some?
    ensures var r, next := d.journal.state.source, Owned(NextRecoveryAttempt(d.journal.attempt, now).value, p.owner);
            BudgetOk(d.(journal := Stored(Reserved(r), false, next)), p, s.Granted(r, next))
  {
    RecoverySpendsTheCap(d.journal.attempt, now);
  }

  lemma RetryKeepsBudget(w: World, a: Action)
    requires Sound(w) && Budgeted(w) && Enabled(w, a) && a.Retry?
    ensures Budgeted(Apply(w, a))
  {
    RecoveryIsFunded(w, a);
    hide KeysInJournal, BudgetOk, Owned, Spending.Granted, Funded, NextRecoveryAttempt, Sound;
    GrantingKeepsBudget(w.disk, w.proc, w.spending, a.now);
  }

  lemma RecoveryIsFunded(w: World, a: Action)
    requires Sound(w) && Enabled(w, a) && a.Retry?
    ensures w.disk.journal.Stored? && Funded(w.disk.journal.attempt)
  {
    hide Origins, ControlOk, Readable;
  }

  lemma RequestKeepsBudget(w: World, a: Action)
    requires Sound(w) && Budgeted(w) && Enabled(w, a) && a.Request?
    ensures Budgeted(Apply(w, a))
  {
    hide KeysInJournal, LineageOk;
  }

  lemma SendKeepsBudget(w: World, a: Action)
    requires Sound(w) && Budgeted(w) && Enabled(w, a) && a.Send?
    ensures Budgeted(Apply(w, a))
  {
    hide KeysInJournal, LineageOk, Readable, ClosureOk;
  }

  // A record that is no longer active replaces the one it is about; only a schedule has to
  // agree with the history, which may change for that revision alone.
  lemma ConclusionKeepsBudget(d: Disk, p: Process, s: Spending, file: JournalFile, q: Process, t: Spending)
    requires BudgetOk(d, p, s) && file.Stored? && file.state.Terminal()
    requires d.Current(file.state.source) && file.state.source in s.spends
    requires s.spends.Keys == t.spends.Keys && s.restarted <= t.restarted <= s.restarted + {file.state.source}
    requires forall x <- s.spends :: x != file.state.source ==> t.spends[x] == s.spends[x]
    requires WithinLimits(t.spends[file.state.source], file.state.source in t.restarted)
    requires file.attempt.IsScheduled() ==> Bound(file.attempt, file.state.source, t.spends)
    requires (q.phase.Idle? || (q.phase.Installing? && q.phase.kept.source == file.state.source))
             && q.retained == p.retained
    ensures BudgetOk(d.(journal := file), q, t)
  {
    hide Readable, EventKey;
  }

  // The attempt a commit finds, and the one it writes.
  lemma CommittedAttempt(w: World, a: Action)
    requires Sound(w) && Budgeted(w) && Enabled(w, a) && a.Commit?
    ensures var j, r := w.disk.journal, w.proc.phase.source; var attempt := AttemptFor(j, r, a.readable);
            && j.Stored? && ContentIsCurrent(w.disk) && j.state == Requested(r) && Funded(j.attempt)
            && Bound(j.attempt, r, w.spending.spends)
            && (j.attempt.kind.Normal? ==> CountsOf(j.attempt) == ONE_FIRST)
            && attempt.continuation.None?
            && attempt == (if a.readable then j.attempt else FreshAttempt(r, 1))
  {
    assert w.proc.phase.source != "";
    CarriedAttempt(w.disk.journal, w.proc.phase.source, a.readable);
    hide LineageOk, KeysInJournal, WithContinuation;
  }

  // What a commit changes.
  lemma CommitMoves(w: World, a: Action)
    requires Enabled(w, a) && a.Commit?
    ensures var j, r, answer, v := w.disk.journal, w.proc.phase.source, w.proc.phase.answer, Apply(w, a);
            var file := CommitFile(j, r, answer, a.now, a.reason, a.responseClass, a.readable);
            && w.disk.Current(r)
            && v.disk == (if a.o.Lands() then w.disk.(journal := file) else w.disk)
            && v.spending == (if a.o.Lands() && answer.Unclear? && !a.readable
                              then w.spending.Forgotten(r, KindOn(j), a.now + RECOVERY_WINDOW) else w.spending)
            && v.proc.retained == w.proc.retained
            && (v.proc.phase.Idle? || (v.proc.phase.Installing? && v.proc.phase.kept.source == r))
  {
    hide KeysInJournal, CommitFile, Spending.Forgotten, KindOn;
  }

  lemma LandedCommitKeepsBudget(w: World, a: Action)
    requires Sound(w) && Budgeted(w) && Enabled(w, a) && a.Commit? && a.o.Lands()
    ensures Budgeted(Apply(w, a))
  {
    CommittedAttempt(w, a);
    var j, r, answer, v := w.disk.journal, w.proc.phase.source, w.proc.phase.answer, Apply(w, a);
    hide Sound, Enabled, Apply, AttemptFor, Spending.Forgotten, FreshAttempt, CommitFile, KindOn, JournalBudget,
         QuietWithoutJournal;
    CommitMoves(w, a);
    CommittedSpend(j, r, w.spending, answer, a.now, a.reason, a.responseClass, a.readable);
    ConclusionKeepsBudget(w.disk, w.proc, w.spending,
                          CommitFile(j, r, answer, a.now, a.reason, a.responseClass, a.readable), v.proc, v.spending);
  }

  lemma LostCommitKeepsBudget(w: World, a: Action)
    requires Budgeted(w) && Enabled(w, a) && a.Commit? && !a.o.Lands()
    ensures Budgeted(Apply(w, a))
  {
    CommitMoves(w, a);
    hide Enabled, Apply, JournalBudget, QuietWithoutJournal, WithinLimits;
  }

  lemma CommitKeepsBudget(w: World, a: Action)
    requires Sound(w) && Budgeted(w) && Enabled(w, a) && a.Commit?
    ensures Budgeted(Apply(w, a))
  {
    hide Sound, Budgeted, Enabled, Apply;
    if a.o.Lands() { LandedCommitKeepsBudget(w, a); } else { LostCommitKeepsBudget(w, a); }
  }

  // The record a commit writes keeps the counts of the attempt it carries over, and only an
  // unclear answer schedules.
  lemma CommittedFile(j: JournalFile, r: Revision, answer: Answer, now: int, reason: string,
                      responseClass: Option<string>, readable: bool)
    requires AttemptFor(j, r, readable).continuation.None?
    ensures var file := CommitFile(j, r, answer, now, reason, responseClass, readable);
            var a := AttemptFor(j, r, readable);
            && file.Stored? && file.state.Terminal() && file.state.source == r
            && CountsOf(file.attempt) == CountsOf(a)
            && (file.attempt.IsScheduled() ==>
                  && answer.Unclear?
                  && file.attempt.deadline == Some(if a.deadline.Some? then a.deadline.value
                                                   else now + RECOVERY_WINDOW))
  {
    hide AttemptFor, WithContinuation;
    if answer.Unclear? {
      SchedulingKeepsTheBudget(AttemptFor(j, r, readable), answer.lane, now + RECOVERY_WINDOW, now);
    }
  }

  lemma ForgettingKeepsLimits(s: Spending, r: Revision, kind: AttemptKind, deadline: int)
    requires r in s.spends && WithinLimits(s.spends[r], r in s.restarted)
    requires kind.Normal? ==> s.spends[r].granted == ONE_FIRST
    ensures var t := s.Forgotten(r, kind, deadline);
            && t.spends.Keys == s.spends.Keys && s.restarted <= t.restarted <= s.restarted + {r}
            && (forall x <- s.spends :: x != r ==> t.spends[x] == s.spends[x])
            && WithinLimits(t.spends[r], r in t.restarted)
            && t.spends[r].granted == ONE_FIRST && t.spends[r].deadline == deadline
  {
  }

  // What a commit leaves of the record and of the history agrees.
  lemma CommittedSpend(j: JournalFile, r: Revision, s: Spending, answer: Answer, now: int, reason: string,
                       responseClass: Option<string>, readable: bool)
    requires r in s.spends && WithinLimits(s.spends[r], r in s.restarted)
    requires j.Stored? && j.state == Requested(r) && Bound(j.attempt, r, s.spends)
    requires j.attempt.kind.Normal? ==> CountsOf(j.attempt) == ONE_FIRST
    requires AttemptFor(j, r, readable).continuation.None?
    requires AttemptFor(j, r, readable) == (if readable then j.attempt else FreshAttempt(r, 1))
    ensures var t := if answer.Unclear? && !readable then s.Forgotten(r, KindOn(j), now + RECOVERY_WINDOW) else s;
            var file := CommitFile(j, r, answer, now, reason, responseClass, readable);
            && file.Stored? && file.state.Terminal() && file.state.source == r
            && s.spends.Keys == t.spends.Keys && s.restarted <= t.restarted <= s.restarted + {r}
            && (forall x <- s.spends :: x != r ==> t.spends[x] == s.spends[x])
            && WithinLimits(t.spends[r], r in t.restarted)
            && (file.attempt.IsScheduled() ==> Bound(file.attempt, r, t.spends))
  {
    assert CountsOf(FreshAttempt(r, 1)) == ONE_FIRST;
    hide AttemptFor, CommitFile, CountsOf, WithinLimits, Spending.Forgotten;
    CommittedFile(j, r, answer, now, reason, responseClass, readable);
    ForgettingKeepsLimits(s, r, KindOn(j), now + RECOVERY_WINDOW);
  }

  lemma ProjectKeepsBudget(w: World, a: Action)
    requires Sound(w) && Budgeted(w) && Enabled(w, a) && (a.Project? || a.Rerecord?)
    ensures Budgeted(Apply(w, a))
  {
    var s := w.proc.retained.value;
    CarriedAttempt(w.disk.journal, s.source, a.readable);
    RecordingKeepsBudget(w, a);
  }

  lemma RecordingKeepsBudget(w: World, a: Action)
    requires Budgeted(w) && Enabled(w, a) && (a.Project? || a.Rerecord?)
    requires AttemptFor(w.disk.journal, w.proc.retained.value.source, a.readable).continuation.None?
    requires ContentIsCurrent(w.disk) ==> w.disk.journal.state.source == w.proc.retained.value.source
    ensures Budgeted(Apply(w, a))
  {
    hide KeysInJournal, AttemptFor, Readable, EventKey, WithinLimits, CountsOf, Bound, HasRoom;
  }

  lemma RewritingKeepsBudget(w: World, a: Action)
    requires Sound(w) && Budgeted(w) && Enabled(w, a) && Rewrites(a)
    ensures Budgeted(Apply(w, a))
  {
    hide KeysInJournal, Origins, Readable, WithContinuation, StopRecord, EventKey;
    if a.MarkUnknown? {
      SchedulingKeepsTheBudget(w.disk.journal.attempt, AmbiguityReplay, a.now + RECOVERY_WINDOW, a.now);
    } else if a.Stop? {
      StopShape(w.disk.journal.state, w.disk.journal.attempt);
    }
  }

  lemma DropReservedKeepsBudget(w: World, a: Action)
    requires Sound(w) && Budgeted(w) && Enabled(w, a) && a.DropReserved?
    ensures Budgeted(Apply(w, a))
  {
    hide KeysInJournal, Origins, ControlOk, Readable, EventKey;
  }

  lemma DroppingKeepsBudget(w: World, a: Action)
    requires Sound(w) && Budgeted(w) && Enabled(w, a) && Drops(a) && !a.DropReserved?
    ensures Budgeted(Apply(w, a))
  {
    if a.DropProjected? {
      assert w.line.minted[w.disk.journal.state.successor].source == w.disk.journal.state.source;
    }
    hide KeysInJournal, LineageOk, Readable, EventKey;
  }

  // A revision that becomes current was never dispatched for.
  lemma NewcomerIsUnspent(w: World, a: Action)
    requires Origins(w) && Enabled(w, a) && (a.Install? || a.Import?)
    ensures (if a.Install? then w.disk.journal.state.successor else a.imported.revision) !in w.spending.spends
  {
    if a.Install? {
      var t := w.disk.journal.state.successor;
      assert t in w.line.minted && w.line.minted[t].source == w.disk.auth.value.revision;
      assert !CurrentOrPast(w.disk.auth, w.line.past, t);
    } else {
      assert a.imported.revision !in w.line.past;
    }
  }

  lemma ArrivalKeepsBudget(w: World, a: Action)
    requires Sound(w) && Budgeted(w) && Enabled(w, a) && (a.Install? || a.Import?)
    ensures Budgeted(Apply(w, a))
  {
    NewcomerIsUnspent(w, a);
    hide KeysInJournal, Readable, Origins, ClosureOk;
    if a.o.Lands() {
      var d := Apply(w, a).disk;
      var r := d.auth.value.revision;
      assert r !in w.spending.spends;
      assert BudgetOk(d, Apply(w, a).proc, w.spending);
    }
  }

  lemma ProcessKeepsBudget(w: World, a: Action)
    requires Sound(w) && Budgeted(w) && Enabled(w, a) && !WritesJournal(a) && !a.Send? && !a.Install? && !a.Import?
    ensures Budgeted(Apply(w, a))
  {
    hide KeysInJournal, Readable, LineageOk, EventKey, WithinLimits;
  }

  lemma StepKeepsBudget(w: World, a: Action)
    requires Sound(w) && Budgeted(w) && Enabled(w, a)
    ensures Budgeted(Apply(w, a))
  {
    hide Apply, Enabled, Sound, Budgeted;
    if a.Begin? { BeginKeepsBudget(w, a); }
    else if a.Retry? { RetryKeepsBudget(w, a); }
    else if a.Request? { RequestKeepsBudget(w, a); }
    else if a.Send? { SendKeepsBudget(w, a); }
    else if a.Commit? { CommitKeepsBudget(w, a); }
    else if a.Project? || a.Rerecord? { ProjectKeepsBudget(w, a); }
    else if Rewrites(a) { RewritingKeepsBudget(w, a); }
    else if a.DropReserved? { DropReservedKeepsBudget(w, a); }
    else if Drops(a) { DroppingKeepsBudget(w, a); }
    else if a.Install? || a.Import? { ArrivalKeepsBudget(w, a); }
    else { ProcessKeepsBudget(w, a); }
  }

  // ------------------------------------------------------------ counted from the run

  // The steps that throw a durable budget away, once something was sent under it: deleting
  // the reservation of a recovery dispatch, and scheduling the next recovery after one
  // without having read its journal.
  predicate ForgetsBudget(w: World, a: Action, r: Revision)
    requires Enabled(w, a)
  {
    match a
    case DropReserved(o) =>
      o.Lands() && w.disk.journal.state.source == r && w.disk.journal.attempt.kind.Recovery?
        && w.spending.TotalSent(r) > 0
    case Commit(_, _, _, _, _) => SchedulesBlindly(w, a) && w.proc.phase.source == r && KindOn(w.disk.journal).Recovery?
    case _ => false
  }

  predicate Remembers(w: World, acts: seq<Action>, r: Revision)
    requires Legal(w, acts)
    decreases |acts|
  {
    acts == [] || (var n := |acts| - 1;
                   Remembers(w, acts[..n], r) && !ForgetsBudget(Exec(w, acts[..n]), acts[n], r))
  }

  // What the history operations leave of one revision.
  lemma ReopeningConserves(s: Spending, x: Revision, deadline: int, r: Revision)
    ensures s.Reopened(x, deadline).TotalSent(r) == s.TotalSent(r) && s.Reopened(x, deadline).restarted == s.restarted
    ensures x != r ==> s.Reopened(x, deadline).Of(r) == s.Of(r)
    ensures s.Reopened(x, deadline).Of(x).sent == NONE
  {
  }

  lemma GrantingConserves(s: Spending, x: Revision, attempt: RotationAttempt, r: Revision)
    ensures s.Granted(x, attempt).TotalSent(r) == s.TotalSent(r) && s.Granted(x, attempt).restarted == s.restarted
    ensures s.Granted(x, attempt).Of(r).sent == s.Of(r).sent
  {
  }

  lemma PlusIsAdd(c: Counts, kind: AttemptKind)
    ensures c.Plus(kind) == c.Add(NONE.Plus(kind)) && c.Plus(kind).Total() == c.Total() + 1
    ensures NONE.Plus(kind).Total() == 1 && NONE.Total() == 0
  {
    match kind
    case Normal =>
    case Recovery(SafeRetry) =>
    case Recovery(ValidationRecovery) =>
    case Recovery(AmbiguityReplay) =>
  }

  lemma SendingConserves(s: Spending, x: Revision, kind: AttemptKind, r: Revision)
    ensures var more := if x == r then NONE.Plus(kind) else NONE;
            && s.Sent(x, kind).TotalSent(r) == s.TotalSent(r) + more.Total()
            && s.Sent(x, kind).Of(r).sent == s.Of(r).sent.Add(more)
            && s.Sent(x, kind).restarted == s.restarted
  {
    hide Counts.Plus, Counts.Add;
    PlusIsAdd(s.Of(x).sent, kind);
    AddAssociates(s.Of(r).sent, NONE, NONE);
    var after := s.Of(x).(sent := s.Of(x).sent.Plus(kind));
    assert s.Sent(x, kind).spends == s.spends[x := after];
  }

  lemma ForgettingConserves(s: Spending, x: Revision, kind: AttemptKind, deadline: int, r: Revision)
    ensures s.Forgotten(x, kind, deadline).TotalSent(r) == s.TotalSent(r)
    ensures kind.Normal? || x != r ==>
              && s.Forgotten(x, kind, deadline).Of(r).sent == s.Of(r).sent
              && (r in s.Forgotten(x, kind, deadline).restarted <==> r in s.restarted)
  {
    ReopeningConserves(s, x, deadline, r);
  }

  lemma DroppingConserves(s: Spending, x: Revision, kind: AttemptKind, r: Revision)
    ensures s.Dropped(x, kind).spends == s.spends
    ensures kind.Normal? || x != r || s.TotalSent(r) <= 0 ==> (r in s.Dropped(x, kind).restarted <==> r in s.restarted)
  {
  }

  // One step, seen from one revision: nothing sent is lost, and unless the budget is
  // forgotten the counts go on.
  predicate Counted(w: World, a: Action, r: Revision)
    requires Enabled(w, a)
  {
    var s, t := w.spending, SpendingAfter(w, a);
    && t.TotalSent(r) == s.TotalSent(r) + Sends(w, a, r).Total()
    && (r !in s.restarted && !ForgetsBudget(w, a, r) && !(a.Begin? && w.disk.Current(r) && s.Of(r).sent != NONE) ==>
          r !in t.restarted && t.Of(r).sent == s.Of(r).sent.Add(Sends(w, a, r)))
  }

  lemma SameHistory(s: Spending, t: Spending, r: Revision)
    requires s.spends == t.spends
    ensures s.Of(r) == t.Of(r) && s.TotalSent(r) == t.TotalSent(r)
    ensures s.Of(r).sent.Add(NONE) == s.Of(r).sent && NONE.Total() == 0
  {
  }

  lemma BeginCounts(w: World, a: Action, r: Revision)
    requires Enabled(w, a) && a.Begin?
    ensures Counted(w, a, r)
  {
    hide Apply, Spending.Reopened, Spending.TotalSent, Counts.Add;
    ReopeningConserves(w.spending, w.disk.auth.value.revision, a.now + RECOVERY_WINDOW, r);
    SameHistory(w.spending, w.spending, r);
  }

  lemma RetryKeepsTotal(w: World, a: Action, r: Revision)
    requires Enabled(w, a) && a.Retry?
    ensures SpendingAfter(w, a).TotalSent(r) == w.spending.TotalSent(r)
  {
    var next := Owned(NextRecoveryAttempt(w.disk.journal.attempt, a.now).value, w.proc.owner);
    hide Enabled, Apply, Owned, NextRecoveryAttempt, CountsOf, Spending.Granted, Spending.TotalSent, Counts.Total;
    GrantingConserves(w.spending, w.disk.journal.state.source, next, r);
  }

  lemma RetryKeepsSent(w: World, a: Action, r: Revision)
    requires Enabled(w, a) && a.Retry?
    ensures var t := SpendingAfter(w, a); t.Of(r).sent == w.spending.Of(r).sent && t.restarted == w.spending.restarted
  {
    var next := Owned(NextRecoveryAttempt(w.disk.journal.attempt, a.now).value, w.proc.owner);
    hide Enabled, Apply, Owned, NextRecoveryAttempt, CountsOf, Spending.Granted, Spending.TotalSent, Counts.Total;
    GrantingConserves(w.spending, w.disk.journal.state.source, next, r);
  }

  // A step that posts nothing and keeps the history of r counts on.
  lemma SilentStepCounts(w: World, a: Action, r: Revision)
    requires Enabled(w, a) && Sends(w, a, r) == NONE
    requires var s, t := w.spending, SpendingAfter(w, a);
             t.TotalSent(r) == s.TotalSent(r) && t.Of(r).sent == s.Of(r).sent
    requires r !in w.spending.restarted && !ForgetsBudget(w, a, r) ==> r !in SpendingAfter(w, a).restarted
    ensures Counted(w, a, r)
  {
    hide Enabled, Apply, SpendingAfter, Spending.TotalSent, Counts.Add, Counts.Total, Spending.Of, ForgetsBudget, Sends;
    SameHistory(w.spending, w.spending, r);
  }

  lemma RetryCounts(w: World, a: Action, r: Revision)
    requires Enabled(w, a) && a.Retry?
    ensures Counted(w, a, r)
  {
    hide Enabled, Apply, SpendingAfter, Spending.TotalSent, Spending.Of, ForgetsBudget, Counted;
    RetryKeepsTotal(w, a, r);
    RetryKeepsSent(w, a, r);
    SilentStepCounts(w, a, r);
  }

  lemma SendCounts(w: World, a: Action, r: Revision)
    requires Enabled(w, a) && a.Send?
    ensures Counted(w, a, r)
  {
    hide Apply, Spending.Sent, Spending.TotalSent, Counts.Add, Counts.Plus;
    SendingConserves(w.spending, w.proc.phase.source, w.proc.phase.kind, r);
  }

  lemma CommitCounts(w: World, a: Action, r: Revision)
    requires Enabled(w, a) && a.Commit?
    ensures Counted(w, a, r)
  {
    hide Apply, Spending.Forgotten, Spending.TotalSent, Counts.Add;
    ForgettingConserves(w.spending, w.proc.phase.source, KindOn(w.disk.journal), a.now + RECOVERY_WINDOW, r);
    SameHistory(w.spending, w.spending, r);
  }

  lemma DropKeepsHistory(w: World, a: Action, r: Revision)
    requires Enabled(w, a) && a.DropReserved?
    ensures var s, t := w.spending, SpendingAfter(w, a);
            && t.Of(r).sent == s.Of(r).sent && t.TotalSent(r) == s.TotalSent(r)
            && (r !in s.restarted && !ForgetsBudget(w, a, r) ==> r !in t.restarted)
  {
    hide Apply, Spending.Dropped, Counts.Add, Counts.Total, Spending.Of, Spending.TotalSent;
    var x, kind := w.disk.journal.state.source, w.disk.journal.attempt.kind;
    DroppingConserves(w.spending, x, kind, r);
    SameHistory(w.spending, w.spending.Dropped(x, kind), r);
  }

  lemma DropReservedCounts(w: World, a: Action, r: Revision)
    requires Enabled(w, a) && a.DropReserved?
    ensures Counted(w, a, r)
  {
    hide Enabled, Apply, SpendingAfter, Spending.TotalSent, Spending.Of, ForgetsBudget, Counted;
    DropKeepsHistory(w, a, r);
    SilentStepCounts(w, a, r);
  }

  lemma OtherStepCounts(w: World, a: Action, r: Revision)
    requires Enabled(w, a) && !a.Begin? && !a.Retry? && !a.Send? && !a.Commit? && !a.DropReserved?
    ensures Counted(w, a, r)
  {
    assert SpendingAfter(w, a) == w.spending;
    hide Enabled, Apply, SpendingAfter, Spending.TotalSent, Spending.Of, ForgetsBudget, Counted;
    SilentStepCounts(w, a, r);
  }

  lemma StepCounts(w: World, a: Action, r: Revision)
    requires Enabled(w, a)
    ensures Counted(w, a, r) && Apply(w, a).spending == SpendingAfter(w, a)
  {
    hide Enabled, Apply, Counted, SpendingAfter;
    SpendingMoves(w, a);
    if a.Begin? { BeginCounts(w, a, r); }
    else if a.Retry? { RetryCounts(w, a, r); }
    else if a.Send? { SendCounts(w, a, r); }
    else if a.Commit? { CommitCounts(w, a, r); }
    else if a.DropReserved? { DropReservedCounts(w, a, r); }
    else { OtherStepCounts(w, a, r); }
  }

  // A budget still remembered is opened only before anything was sent under it.
  lemma OpeningIsFirst(w: World, a: Action)
    requires Budgeted(w) && Enabled(w, a) && a.Begin?
    ensures w.disk.auth.Some?
    ensures var r := w.disk.auth.value.revision;
            r !in w.spending.restarted ==> w.spending.TotalSent(r) == 0 && w.spending.Of(r).sent == NONE
  {
    hide Apply, JournalBudget, PhaseBudget;
    var r := w.disk.auth.value.revision;
    if r in w.spending.spends && r !in w.spending.restarted {
      assert w.spending.spends[r].Total() == 0;
    }
  }

  lemma {:induction false} RunKeepsBudget(w: World, acts: seq<Action>)
    requires Sound(w) && Budgeted(w) && Legal(w, acts)
    ensures Sound(Exec(w, acts)) && Budgeted(Exec(w, acts))
    decreases |acts|
  {
    hide Sound, Budgeted, Enabled, Apply;
    if acts != [] {
      var n := |acts| - 1;
      RunKeepsBudget(w, acts[..n]);
      StepKeepsSound(Exec(w, acts[..n]), acts[n]);
      StepKeepsBudget(Exec(w, acts[..n]), acts[n]);
    }
  }

  // Without forgetting, the history's counts are the run's own.
  lemma {:induction false} RunCounts(w: World, acts: seq<Action>, r: Revision)
    requires Sound(w) && Budgeted(w) && r !in w.spending.restarted && Legal(w, acts) && Remembers(w, acts, r)
    ensures var s := Exec(w, acts).spending;
            r !in s.restarted && s.Of(r).sent == w.spending.Of(r).sent.Add(Posted(w, acts, r))
    decreases |acts|
  {
    hide Sound, Budgeted, Enabled, Apply, ForgetsBudget, Sends, Counts.Add, SpendingAfter;
    if acts == [] {
      NothingPosted(w, r);
      AddAssociates(w.spending.Of(r).sent, NONE, NONE);
    } else {
      var n := |acts| - 1;
      var v := Exec(w, acts[..n]);
      RunCounts(w, acts[..n], r);
      RunKeepsBudget(w, acts[..n]);
      StepCounts(v, acts[n], r);
      if acts[n].Begin? && v.disk.Current(r) { OpeningIsFirst(v, acts[n]); }
      assert Exec(w, acts) == Apply(v, acts[n]);
      AddAssociates(w.spending.Of(r).sent, Posted(w, acts[..n], r), Sends(v, acts[n], r));
    }
  }

  // Whatever is forgotten, everything sent stays on the record.
  lemma {:induction false} RunConserves(w: World, acts: seq<Action>, r: Revision)
    requires Legal(w, acts)
    ensures Exec(w, acts).spending.TotalSent(r) == w.spending.TotalSent(r) + Posted(w, acts, r).Total()
    decreases |acts|
  {
    hide Enabled, Apply, Sends, Counts.Add, Counts.Total, SpendingAfter, ForgetsBudget, Spending.TotalSent, Spending.Of;
    if acts == [] {
      NothingPosted(w, r);
      SameHistory(w.spending, w.spending, r);
    } else {
      var n := |acts| - 1;
      RunConserves(w, acts[..n], r);
      StepCounts(Exec(w, acts[..n]), acts[n], r);
      AddAssociates(Posted(w, acts[..n], r), Sends(Exec(w, acts[..n]), acts[n], r), NONE);
    }
  }

  lemma StartIsBudgeted(d: Disk, owner: RefreshOwner, accepted: set<string>)
    requires StartDisk(d, accepted)
    ensures var w := StartWorld(d, owner, accepted);
            Sound(w) && Budgeted(w) && w.spending == Spending(map[], {})
  {
    StartIsSound(d, owner, accepted);
  }

  // A journal record whose budget is still in use.
  predicate Granting(d: Disk, r: Revision) {
    && d.journal.Stored? && ContentIsCurrent(d) && d.journal.state.source == r
    && (d.journal.state.Active() || d.journal.attempt.IsScheduled())
  }

  predicate WithinBudget(c: Counts) {
    c.first <= 1 && c.safe <= 4 && c.validation <= 1 && c.ambiguity <= 1 && c.Total() <= 6
  }

  lemma BudgetBoundsSent(d: Disk, p: Process, s: Spending, r: Revision)
    requires BudgetOk(d, p, s)
    ensures WithinBudget(s.Of(r).sent)
    ensures Granting(d, r) ==>
              s.Of(r).sent.Within(CountsOf(d.journal.attempt))
                && s.Of(r).sent.Total() <= d.journal.attempt.dispatchCount
  {
  }

  // In every run that does not throw the budget of r away, with crashes, restarts, failing
  // writes, unreadable journals and imports anywhere, and even with a clock that jumps: at
  // most 6 POSTs are sent for r, at most 1 first one, 4 safe retries, 1 validation recovery
  // and 1 ambiguity replay, and never more than the durable journal granted.
  lemma DispatchesStayWithinBudget(d: Disk, owner: RefreshOwner, accepted: set<string>, acts: seq<Action>, r: Revision)
    requires StartDisk(d, accepted) && Legal(StartWorld(d, owner, accepted), acts)
    requires Remembers(StartWorld(d, owner, accepted), acts, r)
    ensures var w := StartWorld(d, owner, accepted);
            var now := Exec(w, acts).disk;
            && WithinBudget(Posted(w, acts, r))
            && (Granting(now, r) ==>
                  && Posted(w, acts, r).Within(CountsOf(now.journal.attempt))
                  && Posted(w, acts, r).Total() <= now.journal.attempt.dispatchCount)
  {
    hide Sound, StartDisk, Exec, Legal, Posted, Remembers, BudgetOk, Granting, CountsOf;
    var w := StartWorld(d, owner, accepted);
    StartIsBudgeted(d, owner, accepted);
    RunKeepsBudget(w, acts);
    RunCounts(w, acts, r);
    var v := Exec(w, acts);
    BudgetBoundsSent(v.disk, v.proc, v.spending, r);
  }

  // ------------------------------------------------------------------- the window

  // When the deadline in force was fixed: by the first reservation, or by a commit that
  // could not read the deadline it replaced.
  predicate Opens(w: World, a: Action, r: Revision) {
    (a.Begin? && a.o.Lands() && w.disk.Current(r)) || (SchedulesBlindly(w, a) && w.proc.phase.source == r)
  }

  function OpenedAt(w: World, acts: seq<Action>, r: Revision): Option<int>
    requires Legal(w, acts)
    decreases |acts|
  {
    if acts == [] then None
    else
      var n := |acts| - 1;
      if Opens(Exec(w, acts[..n]), acts[n], r) then ClockOf(acts[n]) else OpenedAt(w, acts[..n], r)
  }

  // When the last first reservation of the revision landed.
  function BeganAt(w: World, acts: seq<Action>, r: Revision): Option<int>
    requires Legal(w, acts)
    decreases |acts|
  {
    if acts == [] then None
    else
      var n := |acts| - 1;
      if acts[n].Begin? && Opens(Exec(w, acts[..n]), acts[n], r) then Some(acts[n].now) else BeganAt(w, acts[..n], r)
  }

  // No deadline was replaced unread.
  predicate ReadsDeadlines(w: World, acts: seq<Action>, r: Revision)
    requires Legal(w, acts)
    decreases |acts|
  {
    acts == [] || (var n := |acts| - 1;
                   && ReadsDeadlines(w, acts[..n], r)
                   && !(SchedulesBlindly(Exec(w, acts[..n]), acts[n]) && Exec(w, acts[..n]).proc.phase.source == r))
  }

  lemma OpeningSetsDeadline(w: World, a: Action, r: Revision)
    requires Enabled(w, a) && r in Apply(w, a).spending.spends && Opens(w, a, r)
    ensures ClockOf(a).Some? && Apply(w, a).spending.spends[r].deadline == ClockOf(a).value + RECOVERY_WINDOW
  {
    SpendingMoves(w, a);
    hide Apply, Owned, FirstAttempt, Spending.TotalSent;
  }

  lemma OtherStepKeepsDeadline(w: World, a: Action, r: Revision)
    requires Budgeted(w) && Enabled(w, a) && r in Apply(w, a).spending.spends && !Opens(w, a, r)
    requires a.Retry? ==> w.disk.journal.Stored?
    ensures r in w.spending.spends && Apply(w, a).spending.spends[r].deadline == w.spending.spends[r].deadline
  {
    SpendingMoves(w, a);
    hide Apply, Readable, EventKey, Owned, NextRecoveryAttempt, FirstAttempt, QuietWithoutJournal, Spending.TotalSent;
  }

  lemma StepKeepsDeadline(w: World, a: Action, r: Revision)
    requires Sound(w) && Budgeted(w) && Enabled(w, a) && r in Apply(w, a).spending.spends
    ensures var s, t := w.spending, Apply(w, a).spending;
            if Opens(w, a, r) then ClockOf(a).Some? && t.spends[r].deadline == ClockOf(a).value + RECOVERY_WINDOW
            else r in s.spends && t.spends[r].deadline == s.spends[r].deadline
  {
    if a.Retry? { RecoveryIsFunded(w, a); }
    hide Sound, Budgeted, Enabled, Apply, Opens;
    if Opens(w, a, r) { OpeningSetsDeadline(w, a, r); } else { OtherStepKeepsDeadline(w, a, r); }
  }

  lemma {:induction false} DeadlineIsFromOpening(w: World, acts: seq<Action>, r: Revision)
    requires Sound(w) && Budgeted(w) && r !in w.spending.spends && Legal(w, acts)
    ensures r in Exec(w, acts).spending.spends ==>
              OpenedAt(w, acts, r) == Some(Exec(w, acts).spending.spends[r].deadline - RECOVERY_WINDOW)
    ensures ReadsDeadlines(w, acts, r) ==> OpenedAt(w, acts, r) == BeganAt(w, acts, r)
    decreases |acts|
  {
    hide Sound, Budgeted, Enabled, Apply, SchedulesBlindly;
    if acts != [] {
      var n := |acts| - 1;
      var v := Exec(w, acts[..n]);
      DeadlineIsFromOpening(w, acts[..n], r);
      RunKeepsBudget(w, acts[..n]);
      if r in Exec(w, acts).spending.spends {
        StepKeepsDeadline(v, acts[n], r);
      }
    }
  }

  lemma WindowIsOpen(v: World, a: Action, r: Revision)
    requires Sound(v) && Budgeted(v) && Enabled(v, a) && v.disk.Current(r)
    ensures a.Retry? ==> r in v.spending.spends && a.now < v.spending.spends[r].deadline
    ensures a.Begin? && r !in v.spending.restarted ==> v.spending.TotalSent(r) == 0
  {
    hide Origins, ControlOk, Readable;
    if a.Begin? {
      assert r in v.spending.spends && r !in v.spending.restarted ==> v.spending.spends[r].Total() == 0;
    }
  }

  // Every recovery dispatch is reserved within the window of the last opening, in every
  // run; that opening is the first reservation as long as no commit replaced a deadline it
  // could not read; and while the budget is remembered it is never repeated after a POST.
  lemma RecoveriesStayInsideTheWindow(d: Disk, owner: RefreshOwner, accepted: set<string>, acts: seq<Action>,
                                      a: Action, r: Revision)
    requires StartDisk(d, accepted) && Legal(StartWorld(d, owner, accepted), acts)
    requires Enabled(Exec(StartWorld(d, owner, accepted), acts), a)
    requires Exec(StartWorld(d, owner, accepted), acts).disk.Current(r)
    ensures var w := StartWorld(d, owner, accepted);
            && (a.Retry? ==> OpenedAt(w, acts, r).Some? && a.now < OpenedAt(w, acts, r).value + 600)
            && (ReadsDeadlines(w, acts, r) ==> OpenedAt(w, acts, r) == BeganAt(w, acts, r))
            && (a.Begin? && Remembers(w, acts, r) ==> Posted(w, acts, r) == NONE)
  {
    hide Sound, Budgeted, StartDisk, StartWorld, Exec, Legal, Posted, OpenedAt, BeganAt, ReadsDeadlines, Remembers,
         Enabled, Counts.Add, Spending.TotalSent;
    var w := StartWorld(d, owner, accepted);
    StartIsBudgeted(d, owner, accepted);
    RunKeepsBudget(w, acts);
    DeadlineIsFromOpening(w, acts, r);
    var v := Exec(w, acts);
    WindowIsOpen(v, a, r);
    if a.Begin? && Remembers(w, acts, r) {
      RunCounts(w, acts, r);
      RunConserves(w, acts, r);
      NothingSentMeansNone(v, r);
      AddAssociates(Posted(w, acts, r), NONE, NONE);
    }
  }

  lemma NothingSentMeansNone(v: World, r: Revision)
    requires Budgeted(v) && v.spending.TotalSent(r) == 0
    ensures v.spending.Of(r).sent == NONE
  {
  }
}
