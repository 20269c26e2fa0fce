// The exact limit of the recovery window: which steps let a recovery be reserved after the
// deadline in force has passed.
module WindowLimits {
  import opened Wrappers
  import opened StateMachine
  import opened Journal
  import opened Budget
  import opened Protocol
  import opened Invariants
  import opened Runs
  import opened DispatchBudget
  import opened Exchanges
  import opened BudgetLimits

  // ------------------------------------------------------------ what keeps the window shut

  // Once something was posted for the current revision its journal is there, and it is past
  // the reservation of a first request.
  predicate HasRecord(d: Disk, posted: bool, r: Revision) {
    d.Current(r) && posted ==>
      ContentIsCurrent(d) && !(d.journal.state.Reserved? && d.journal.attempt.kind.Normal?)
  }

  predicate Recorded(w: World, r: Revision) {
    HasRecord(w.disk, w.spending.TotalSent(r) > 0, r)
  }

  // Deleting the reservation of a recovery after a POST, the one step that leaves a posted
  // revision without a journal.
  predicate DropsBudget(w: World, a: Action, r: Revision)
    requires Enabled(w, a)
  {
    a.DropReserved? && ForgetsBudget(w, a, r)
  }

  predicate NeverDrops(w: World, acts: seq<Action>, r: Revision)
    requires Legal(w, acts)
    decreases |acts|
  {
    acts == [] || (var n := |acts| - 1; NeverDrops(w, acts[..n], r) && !DropsBudget(Exec(w, acts[..n]), acts[n], r))
  }

  // What a step adds to the total is what it posts.
  lemma TotalMoves(w: World, a: Action, r: Revision)
    requires Enabled(w, a)
    ensures Apply(w, a).spending.TotalSent(r) == w.spending.TotalSent(r) + Sends(w, a, r).Total()
    ensures Sends(w, a, r).Total() >= 0 && (!a.Send? ==> Sends(w, a, r).Total() == 0)
  {
    hide Apply, Enabled, SpendingAfter, Spending.TotalSent;
    StepCounts(w, a, r);
  }

  lemma BeginKeepsRecord(w: World, a: Action, posted: bool, r: Revision)
    requires Enabled(w, a) && HasRecord(w.disk, posted, r) && a.Begin?
    ensures HasRecord(Apply(w, a).disk, posted, r)
  {
    hide KeysInJournal, Readable, Spending.Reopened, Owned, FirstAttempt;
  }

  lemma RetryKeepsRecord(w: World, a: Action, posted: bool, r: Revision)
    requires Enabled(w, a) && HasRecord(w.disk, posted, r) && (a.Retry? || a.Request?)
    ensures HasRecord(Apply(w, a).disk, posted, r)
  {
    hide KeysInJournal, Readable, Spending.Granted;
  }

  lemma CommitKeepsRecord(w: World, a: Action, posted: bool, r: Revision)
    requires Enabled(w, a) && HasRecord(w.disk, posted, r) && a.Commit?
    ensures HasRecord(Apply(w, a).disk, posted, r)
  {
    var j, source, answer := w.disk.journal, w.proc.phase.source, w.proc.phase.answer;
    CommitMoves(w, a);
    CommitFileShape(j, source, answer, a.now, a.reason, a.responseClass, a.readable);
    hide Enabled, Apply, CommitFile, Spending.Forgotten;
  }

  lemma ProjectionKeepsRecord(w: World, a: Action, posted: bool, r: Revision)
    requires Sound(w) && Enabled(w, a) && HasRecord(w.disk, posted, r) && (a.Project? || a.Rerecord?)
    ensures HasRecord(Apply(w, a).disk, posted, r)
  {
    hide KeysInJournal, AttemptFor, ClosureOk, LineageOk, Readable, EventKey;
  }

  lemma RewritingKeepsRecord(w: World, a: Action, posted: bool, r: Revision)
    requires Enabled(w, a) && HasRecord(w.disk, posted, r) && Rewrites(a)
    ensures HasRecord(Apply(w, a).disk, posted, r)
  {
    hide KeysInJournal, WithContinuation, StopRecord, Readable, EventKey;
  }

  lemma DroppingKeepsRecord(w: World, a: Action, r: Revision)
    requires Sound(w) && Enabled(w, a) && Recorded(w, r) && Drops(a) && !DropsBudget(w, a, r)
    ensures HasRecord(Apply(w, a).disk, w.spending.TotalSent(r) > 0, r)
  {
    if a.DropProjected? {
      assert w.line.minted[w.disk.journal.state.successor].source == w.disk.journal.state.source;
    }
    hide KeysInJournal, ControlOk, ClosureOk, LineageOk, Readable, EventKey, Spending.Dropped;
  }

  lemma ArrivalKeepsRecord(w: World, a: Action, r: Revision)
    requires Sound(w) && Enabled(w, a) && Recorded(w, r) && (a.Install? || a.Import?)
    ensures HasRecord(Apply(w, a).disk, w.spending.TotalSent(r) > 0, r)
  {
    NewcomerIsUnspent(w, a);
    hide KeysInJournal, Readable, EventKey, Origins, ControlOk, ClosureOk;
  }

  lemma SendKeepsRecord(w: World, a: Action, r: Revision)
    requires Sound(w) && Enabled(w, a) && Recorded(w, r) && a.Send?
    ensures Recorded(Apply(w, a), r)
  {
    TotalMoves(w, a, r);
    hide Origins, ClosureOk, Spending.Sent, Spending.TotalSent, Counts.Plus, Counts.Total;
  }

  lemma OtherStepKeepsDisk(w: World, a: Action, posted: bool, r: Revision)
    requires Enabled(w, a) && HasRecord(w.disk, posted, r)
    requires !Reserves(a) && !Rewrites(a) && !Drops(a) && !a.Commit? && !a.Install? && !a.Import? && !a.Send?
    ensures HasRecord(Apply(w, a).disk, posted, r)
  {
    hide EventKey;
  }

  lemma SilentStepKeepsRecord(w: World, a: Action, r: Revision)
    requires Sound(w) && Enabled(w, a) && Recorded(w, r) && !DropsBudget(w, a, r) && !a.Send?
    ensures HasRecord(Apply(w, a).disk, w.spending.TotalSent(r) > 0, r)
  {
    hide Apply, Enabled, Sound, HasRecord, Spending.TotalSent, DropsBudget;
    var posted := w.spending.TotalSent(r) > 0;
    if a.Begin? { BeginKeepsRecord(w, a, posted, r); }
    else if a.Retry? || a.Request? { RetryKeepsRecord(w, a, posted, r); }
    else if a.Commit? { CommitKeepsRecord(w, a, posted, r); }
    else if a.Project? || a.Rerecord? { ProjectionKeepsRecord(w, a, posted, r); }
    else if Rewrites(a) { RewritingKeepsRecord(w, a, posted, r); }
    else if Drops(a) { DroppingKeepsRecord(w, a, r); }
    else if a.Install? || a.Import? { ArrivalKeepsRecord(w, a, r); }
    else { OtherStepKeepsDisk(w, a, posted, r); }
  }

  lemma StepKeepsRecord(w: World, a: Action, r: Revision)
    requires Sound(w) && Enabled(w, a) && Recorded(w, r) && !DropsBudget(w, a, r)
    ensures Recorded(Apply(w, a), r)
  {
    if a.Send? {
      SendKeepsRecord(w, a, r);
    } else {
      hide Apply, Enabled, Sound, HasRecord, Spending.TotalSent, DropsBudget, Sends, Counts.Total;
      SilentStepKeepsRecord(w, a, r);
      TotalMoves(w, a, r);
    }
  }

  lemma {:induction false} RunKeepsRecord(w: World, acts: seq<Action>, r: Revision)
    requires Sound(w) && Recorded(w, r) && Legal(w, acts) && NeverDrops(w, acts, r)
    ensures Sound(Exec(w, acts)) && Recorded(Exec(w, acts), r)
    decreases |acts|
  {
    hide Apply, Enabled, Sound, Recorded, DropsBudget;
    if acts != [] {
      var n := |acts| - 1;
      RunKeepsRecord(w, acts[..n], r);
      StepKeepsSound(Exec(w, acts[..n]), acts[n]);
      StepKeepsRecord(Exec(w, acts[..n]), acts[n], r);
    }
  }

  // ------------------------------------------------------------------------ the window

  // Every recovery of r the run reserves is reserved before the limit.
  predicate RecoversBefore(w: World, acts: seq<Action>, r: Revision, limit: int)
    requires Legal(w, acts)
    decreases |acts|
  {
    acts == [] || (var n := |acts| - 1;
                   && RecoversBefore(w, acts[..n], r, limit)
                   && (acts[n].Retry? && Exec(w, acts[..n]).disk.Current(r) ==> acts[n].now < limit))
  }

  // r was posted and recorded, and its deadline is no later than the limit.
  ghost predicate Closing(w: World, r: Revision, limit: int) {
    && Sound(w) && Budgeted(w) && Recorded(w, r) && w.spending.TotalSent(r) > 0
    && r in w.spending.spends && w.spending.spends[r].deadline <= limit
  }

  lemma BeginIsForAnother(w: World, a: Action, r: Revision)
    requires Recorded(w, r) && w.spending.TotalSent(r) > 0 && Enabled(w, a) && a.Begin?
    ensures !w.disk.Current(r)
  {
    hide Spending.TotalSent;
  }

  // No step moves the deadline back out, unless it drops the record or schedules blindly.
  lemma StepKeepsLimit(w: World, a: Action, r: Revision, limit: int)
    requires Closing(w, r, limit) && Enabled(w, a) && r in Apply(w, a).spending.spends
    requires SchedulesBlindly(w, a) && w.proc.phase.source == r ==> a.now + RECOVERY_WINDOW <= limit
    ensures Apply(w, a).spending.spends[r].deadline <= limit
  {
    hide Apply, Enabled, Sound, Budgeted, Recorded, Spending.TotalSent, SchedulesBlindly;
    StepKeepsDeadline(w, a, r);
    if a.Begin? { BeginIsForAnother(w, a, r); }
    if SchedulesBlindly(w, a) { BlindIsCommit(w, a); }
  }

  lemma BlindIsCommit(w: World, a: Action)
    requires SchedulesBlindly(w, a)
    ensures a.Commit? && ClockOf(a) == Some(a.now)
  {
  }

  lemma StepKeepsClosing(w: World, a: Action, r: Revision, limit: int)
    requires Closing(w, r, limit) && Enabled(w, a) && !DropsBudget(w, a, r)
    requires SchedulesBlindly(w, a) && w.proc.phase.source == r ==> a.now + RECOVERY_WINDOW <= limit
    ensures Closing(Apply(w, a), r, limit)
    ensures a.Retry? && w.disk.Current(r) ==> a.now < limit
  {
    hide Apply, Enabled, Sound, Budgeted, Recorded, Spending.TotalSent, DropsBudget, SchedulesBlindly, Sends,
         Counts.Total;
    StepKeepsSound(w, a);
    StepKeepsBudget(w, a);
    StepKeepsRecord(w, a, r);
    TotalMoves(w, a, r);
    PostedIsOpened(Apply(w, a), r);
    StepKeepsLimit(w, a, r, limit);
    if a.Retry? && w.disk.Current(r) { WindowIsOpen(w, a, r); }
  }

  lemma PostedIsOpened(w: World, r: Revision)
    requires w.spending.TotalSent(r) > 0
    ensures r in w.spending.spends
  {
  }

  lemma {:induction false} RunStaysShut(w: World, acts: seq<Action>, r: Revision, limit: int)
    requires Closing(w, r, limit) && Legal(w, acts) && NeverDrops(w, acts, r) && ReadsDeadlines(w, acts, r)
    ensures Closing(Exec(w, acts), r, limit) && RecoversBefore(w, acts, r, limit)
    decreases |acts|
  {
    hide Apply, Enabled, Closing, DropsBudget, SchedulesBlindly;
    if acts != [] {
      var n := |acts| - 1;
      RunStaysShut(w, acts[..n], r, limit);
      StepKeepsClosing(Exec(w, acts[..n]), acts[n], r, limit);
    }
  }

  // A run that goes on without dropping the record, without scheduling unread and without
  // turning a clock back.
  predicate GoesOn(w: World, acts: seq<Action>, more: seq<Action>, r: Revision, from: int)
    requires Legal(w, acts)
  {
    && Legal(Exec(w, acts), more) && NeverDrops(Exec(w, acts), more, r) && ReadsDeadlines(Exec(w, acts), more, r)
    && ClocksRise(more, LatestClock(acts, from))
  }

  // Whatever comes next, r is recovered only before the limit.
  ghost predicate WindowHolds(w: World, acts: seq<Action>, r: Revision, limit: int, from: int)
    requires Legal(w, acts)
  {
    forall more | GoesOn(w, acts, more, r, from) :: RecoversBefore(Exec(w, acts), more, r, limit)
  }

  // ------------------------------------------------------------- what opens it again

  lemma {:induction false} CarefulGoesOn(w: World, acts: seq<Action>, r: Revision)
    requires Legal(w, acts) && Careful(acts)
    ensures NeverDrops(w, acts, r) && ReadsDeadlines(w, acts, r)
    decreases |acts|
  {
    hide Enabled, Apply;
    if acts != [] {
      CarefulGoesOn(w, acts[..|acts| - 1], r);
      assert acts[|acts| - 1] in acts;
    }
  }

  // A run whose last step reserves a recovery of r at or after the limit.
  lemma LateLast(w: World, acts: seq<Action>, v: World, r: Revision, posted: Counts, from: int, open: int, limit: int)
    requires Leads(w, acts, v, r, posted, from, open) && acts != [] && acts[|acts| - 1] == Retry(open, Done)
    requires v.disk.Current(r) && limit <= open
    ensures !RecoversBefore(w, acts, r, limit)
  {
    hide Enabled, Apply, Posted;
    var n := |acts| - 1;
    OtherStepKeepsOwner(Exec(w, acts[..n]), acts[n]);
    assert Exec(w, acts) == Apply(Exec(w, acts[..n]), acts[n]);
  }

  // A scheduled recovery stays dispatchable until its deadline.
  lemma StaysScheduled(w: World, r: Revision, lane: Lane, c: Counts, deadline: int, open: int, later: int)
    requires RecoveryScheduled(w, r, lane, c, deadline, open) && open <= later < deadline
    ensures RecoveryScheduled(w, r, lane, c, deadline, later)
  {
    hide Free, Readable, Exchanges.Holds, Counts.Of, Counts.Total;
  }

  lemma BlindCommitSchedules(v: World, a: Action, r: Revision) returns (lane: Lane)
    requires Accounted(v) && Enabled(v, a) && SchedulesBlindly(v, a) && v.proc.phase.source == r
    ensures r != "" && LatestClock([a], 0) == a.now
    ensures RecoveryScheduled(Apply(v, a), r, lane, ONE_FIRST, a.now + RECOVERY_WINDOW, a.now + LONGEST_DELAY)
  {
    assert r in v.spending.spends && v.disk.auth.value.credential.Cookie?;
    hide KeysInJournal, ClosureOk, Budgeted, RecoveryScheduled;
    assert r != "" && v.proc.retained.None?;
    CommitsBlindlyAt(v, a, r);
    lane := v.proc.phase.answer.lane;
  }

  // After a blind commit later than the opening: the last second of its own window.
  lemma BlindCommitOutlives(v: World, a: Action, r: Revision, limit: int)
    returns (more: seq<Action>, u: World, open: int)
    requires Accounted(v) && Enabled(v, a) && SchedulesBlindly(v, a) && v.proc.phase.source == r
    requires limit < a.now + RECOVERY_WINDOW
    ensures Leads(Apply(v, a), more, u, r, NONE, a.now, open) && Careful(more)
    ensures !RecoversBefore(Apply(v, a), more, r, limit)
  {
    BlindIsCommit(v, a);
    var w, deadline := Apply(v, a), a.now + RECOVERY_WINDOW;
    hide Leads, Enabled, Apply, RecoveryScheduled, ReservedFor, Careful, RecoversBefore, Accounted, SchedulesBlindly;
    var lane := BlindCommitSchedules(v, a, r);
    open := deadline - 1;
    StaysScheduled(w, r, lane, ONE_FIRST, deadline, a.now + LONGEST_DELAY, open);
    more, u := ReservesScheduled(w, r, lane, ONE_FIRST, deadline, open, a.now);
    ReservedIsCurrent(u, r, Recovery(lane), ONE_FIRST.Plus(Recovery(lane)), deadline);
    LateLast(w, more, u, r, NONE, a.now, open, limit);
  }

  // After the reservation of a recovery was dropped: a first request at any later time, and
  // the recovery of its unclear answer.
  lemma DropOutlives(w: World, r: Revision, from: int, limit: int)
    returns (more: seq<Action>, u: World, open: int)
    requires Refreshable(w, r) && r != ""
    ensures Legal(w, more) && ClocksRise(more, from) && Careful(more)
    ensures !RecoversBefore(w, more, r, limit)
  {
    hide Leads, Refreshable, RecoveryScheduled, ReservedFor, Exchanging, Careful, RecoversBefore, Legal, ClocksRise;
    var now := if from < limit then limit else from;
    var deadline, next := now + RECOVERY_WINDOW, now + SAFE_RETRY_DELAY;
    AddAssociates(ONE_FIRST, NONE, NONE);
    var first, sent := FirstExchange(w, r, now);
    var scheduling, scheduled := Reschedules(sent, r, Normal, ONE_FIRST, deadline, SafeRetry, now);
    LeadsFurther(w, first, sent, scheduling, scheduled, r, ONE_FIRST, NONE, now, now, now);
    var reserving, reserved := ReservesScheduled(scheduled, r, SafeRetry, ONE_FIRST, deadline, next, now);
    LeadsFurther(w, first + scheduling, scheduled, reserving, reserved, r, ONE_FIRST, NONE, now, now, next);
    more, u, open := first + scheduling + reserving, reserved, next;
    CarefulJoin(first, scheduling);
    CarefulJoin(first + scheduling, reserving);
    ReservedIsCurrent(u, r, Recovery(SafeRetry), ONE_FIRST.Plus(Recovery(SafeRetry)), deadline);
    LateLast(w, more, u, r, ONE_FIRST, now, open, limit);
    LeadsFromEarlier(w, more, u, r, ONE_FIRST, now, open, from);
  }

  lemma ReservedIsCurrent(w: World, r: Revision, kind: AttemptKind, c: Counts, deadline: int)
    requires ReservedFor(w, r, kind, c, deadline)
    ensures w.disk.Current(r)
  {
  }

  lemma LeadsFromEarlier(w: World, acts: seq<Action>, v: World, r: Revision, posted: Counts, from: int, to: int,
                         earlier: int)
    requires Leads(w, acts, v, r, posted, from, to) && earlier <= from
    ensures Legal(w, acts) && ClocksRise(acts, earlier)
  {
    ClocksRiseFromEarlier(acts, from, earlier);
  }

  // ------------------------------------------------------------------ the exact limit

  // The steps after which r can be recovered later than its window: scheduling, later than
  // the window was opened, without having read the deadline, and dropping the record.
  predicate ReopensWindow(v: World, a: Action, r: Revision, began: int)
    requires Enabled(v, a)
  {
    (SchedulesBlindly(v, a) && v.proc.phase.source == r && a.now > began) || DropsBudget(v, a, r)
  }

  lemma NothingSpentYet(w: World, r: Revision)
    requires w.spending == Spending(map[], {})
    ensures w.spending.TotalSent(r) == 0 && r !in w.spending.spends && Recorded(w, r)
  {
  }

  lemma PostedIsClosing(w: World, acts: seq<Action>, r: Revision)
    requires Accounted(w) && w.spending == Spending(map[], {}) && Legal(w, acts) && NeverDrops(w, acts, r)
    requires Posted(w, acts, r).Total() > 0
    ensures Accounted(Exec(w, acts)) && OpenedAt(w, acts, r).Some?
    ensures Closing(Exec(w, acts), r, OpenedAt(w, acts, r).value + RECOVERY_WINDOW)
  {
    hide Enabled, Apply, Sound, Budgeted, OpenedByOwner, ExchangeCounted, Posted, NeverDrops, Exec, Legal, OpenedAt,
         ReadsDeadlines, Recorded, Counts.Total, Spending.TotalSent;
    NothingSpentYet(w, r);
    RunKeepsAccounts(w, acts);
    RunConserves(w, acts, r);
    RunKeepsRecord(w, acts, r);
    PostedIsOpened(Exec(w, acts), r);
    DeadlineIsFromOpening(w, acts, r);
  }

  // The run that shows the window open again.
  lemma Reopened(v: World, a: Action, r: Revision, began: int, to: int) returns (more: seq<Action>)
    requires Accounted(v) && Enabled(v, a) && ReopensWindow(v, a, r, began) && (a.Commit? ==> to == a.now)
    ensures Legal(Apply(v, a), more) && ClocksRise(more, to) && Careful(more)
    ensures !RecoversBefore(Apply(v, a), more, r, began + RECOVERY_WINDOW)
  {
    hide Enabled, Apply, Accounted, Careful, RecoversBefore, Refreshable, SchedulesBlindly;
    var u, open;
    if DropsBudget(v, a, r) {
      DropLeavesRefreshable(v, a, r);
      more, u, open := DropOutlives(Apply(v, a), r, to, began + RECOVERY_WINDOW);
    } else {
      BlindIsCommit(v, a);
      more, u, open := BlindCommitOutlives(v, a, r, began + RECOVERY_WINDOW);
    }
  }

  // Once r was posted, its recoveries stay inside the window of the last opening as long as
  // the run neither drops the record nor schedules unread, and a step leaves it so exactly
  // when it does not reopen the window: otherwise some run goes on from there, with no clock
  // turned back and neither fault again, to a recovery reserved after the window closed.
  lemma WindowHoldsExactlyUntilReopened(d: Disk, owner: RefreshOwner, accepted: set<string>, acts: seq<Action>,
                                        a: Action, r: Revision, from: int)
    requires StartDisk(d, accepted) && Legal(StartWorld(d, owner, accepted), acts)
    requires NeverDrops(StartWorld(d, owner, accepted), acts, r)
    requires Posted(StartWorld(d, owner, accepted), acts, r).Total() > 0
    requires Enabled(Exec(StartWorld(d, owner, accepted), acts), a)
    ensures var w := StartWorld(d, owner, accepted);
            && Legal(w, acts + [a]) && OpenedAt(w, acts, r).Some?
            && var began := OpenedAt(w, acts, r).value;
               WindowHolds(w, acts + [a], r, began + RECOVERY_WINDOW, from) <==>
               !ReopensWindow(Exec(w, acts), a, r, began)
  {
    hide Sound, Budgeted, StartDisk, StartWorld, Enabled, Apply, Posted, Closing, Accounted, DropsBudget, NeverDrops,
         OpenedAt, Counts.Total, Exec, Legal, ReopensWindow;
    var w := StartWorld(d, owner, accepted);
    StartIsAccounted(d, owner, accepted);
    PostedIsClosing(w, acts, r);
    RunExtends(w, acts, a);
    StepDecides(w, acts, a, r, OpenedAt(w, acts, r).value, from);
  }

  lemma StepDecides(w: World, acts: seq<Action>, a: Action, r: Revision, began: int, from: int)
    requires Legal(w, acts) && Enabled(Exec(w, acts), a)
    requires Legal(w, acts + [a]) && Exec(w, acts + [a]) == Apply(Exec(w, acts), a)
    requires Accounted(Exec(w, acts)) && Closing(Exec(w, acts), r, began + RECOVERY_WINDOW)
    ensures WindowHolds(w, acts + [a], r, began + RECOVERY_WINDOW, from) <==> !ReopensWindow(Exec(w, acts), a, r, began)
  {
    hide Enabled, Apply, Closing, Accounted, DropsBudget, NeverDrops, ReadsDeadlines, Exec, Legal, Careful,
         SchedulesBlindly, RecoversBefore, ClocksRise;
    var v, limit := Exec(w, acts), began + RECOVERY_WINDOW;
    var to := LatestClock(acts + [a], from);
    assert a.Commit? ==> to == a.now;
    if ReopensWindow(v, a, r, began) {
      var more := Reopened(v, a, r, began, to);
      CarefulGoesOn(Apply(v, a), more, r);
      assert GoesOn(w, acts + [a], more, r, from);
    } else {
      if SchedulesBlindly(v, a) { BlindIsCommit(v, a); }
      StepKeepsClosing(v, a, r, limit);
      forall more | GoesOn(w, acts + [a], more, r, from) ensures RecoversBefore(Exec(w, acts + [a]), more, r, limit) {
        RunStaysShut(Apply(v, a), more, r, limit);
      }
    }
  }
}
