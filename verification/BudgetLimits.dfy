// The exact limit of the dispatch budget: from the steps that throw it away, and from no
// others, a run goes on past it.
module BudgetLimits {
  import opened Wrappers
  import opened StateMachine
  import opened Journal
  import Outbox
  import opened Budget
  import opened Protocol
  import opened Invariants
  import opened Runs
  import opened DispatchBudget
  import opened Exchanges

  // ------------------------------------------------- what a spent budget says of the world

  // A current revision with a budget is a cookie, and a valid owner opened it.
  predicate OpenedByOwner(auth: Option<StoredAuth>, owner: RefreshOwner, spends: map<Revision, Spend>) {
    && (auth.Some? && auth.value.revision in spends ==> auth.value.credential.Cookie?)
    && (spends != map[] ==> OwnerIsValid(owner))
  }

  // The exchange in progress is of the kind its journal says, and once sent it was counted.
  predicate ExchangeCounted(d: Disk, phase: Phase, spends: map<Revision, Spend>) {
    InExchange(phase) && d.Current(phase.source) ==>
      && (phase.Sending? ==> KindOn(d.journal) == phase.kind)
      && (!phase.Sending? ==> phase.source in spends && spends[phase.source].sent.Of(KindOn(d.journal)) >= 1)
  }

  ghost predicate Accounted(w: World) {
    && Sound(w) && Budgeted(w)
    && OpenedByOwner(w.disk.auth, w.proc.owner, w.spending.spends)
    && ExchangeCounted(w.disk, w.proc.phase, w.spending.spends)
  }

  // Only a first reservation adds a revision to the history.
  lemma StepKeepsRevisions(w: World, a: Action)
    requires Sound(w) && Budgeted(w) && Enabled(w, a)
    ensures var begun := if a.Begin? && w.disk.auth.Some? then {w.disk.auth.value.revision} else {};
            Apply(w, a).spending.spends.Keys <= w.spending.spends.Keys + begun
  {
    if a.Retry? { RecoveryIsFunded(w, a); }
    SpendingMoves(w, a);
    hide Apply, Sound, Owned, NextRecoveryAttempt, FirstAttempt, Spending.TotalSent, Readable, EventKey,
         QuietWithoutJournal, WithinLimits, HasRoom;
  }

  lemma OtherStepKeepsOwner(w: World, a: Action)
    requires Enabled(w, a) && !a.Install? && !a.Import?
    ensures Apply(w, a).disk.auth == w.disk.auth
    ensures a.Begin? ==> OwnerIsValid(w.proc.owner) && w.disk.auth.Some? && w.disk.auth.value.credential.Cookie?
    ensures Apply(w, a).proc.owner == w.proc.owner || OwnerIsValid(Apply(w, a).proc.owner)
  {
    hide KeysInJournal, CommitFile, ProjectionFile, Readable, EventKey, Owned, NextRecoveryAttempt, FirstAttempt,
         Spending.Reopened, Spending.Granted, Spending.Sent, Spending.Forgotten, Spending.Dropped, Outbox.Keys,
         Outbox.Enqueued, Outbox.Acknowledged, StopRecord, WithContinuation;
  }

  lemma ArrivalKeepsOwner(w: World, a: Action)
    requires Origins(w) && Enabled(w, a) && (a.Install? || a.Import?)
    ensures Apply(w, a).proc.owner == w.proc.owner && Apply(w, a).spending == w.spending
    ensures Apply(w, a).disk.auth == w.disk.auth
            || (Apply(w, a).disk.auth.Some? && Apply(w, a).disk.auth.value.revision !in w.spending.spends)
  {
    NewcomerIsUnspent(w, a);
    hide Origins, KeysInJournal, Readable, EventKey;
  }

  lemma StepKeepsOwner(w: World, a: Action)
    requires Accounted(w) && Enabled(w, a)
    ensures OpenedByOwner(Apply(w, a).disk.auth, Apply(w, a).proc.owner, Apply(w, a).spending.spends)
  {
    hide Enabled, Apply, Origins, Budgeted, ControlOk, ClosureOk;
    if a.Install? || a.Import? {
      ArrivalKeepsOwner(w, a);
    } else {
      StepKeepsRevisions(w, a);
      OtherStepKeepsOwner(w, a);
      var s, t := w.spending.spends, Apply(w, a).spending.spends;
      if t != map[] {
        var r :| r in t;
        assert r in s || a.Begin?;
      }
    }
  }

  lemma SendIsCounted(w: World, a: Action)
    requires Accounted(w) && Enabled(w, a) && (a.Request? || a.Send? || a.Answer?)
    ensures ExchangeCounted(Apply(w, a).disk, Apply(w, a).proc.phase, Apply(w, a).spending.spends)
  {
    hide KeysInJournal, Origins, ClosureOk, JournalBudget, QuietWithoutJournal, Readable, EventKey;
    if a.Send? {
      var s, r := w.spending.spends, w.proc.phase.source;
      assert r in s && WithinLimits(s[r], r in w.spending.restarted);
    }
  }

  // Nothing else changes the journal or the counts of an exchange in progress.
  lemma ExchangeIsLeftAlone(w: World, a: Action)
    requires Sound(w) && Enabled(w, a) && !a.Request? && !a.Send? && !a.Answer? && !a.Install? && !a.Import?
    requires InExchange(Apply(w, a).proc.phase) && Apply(w, a).disk.Current(Apply(w, a).proc.phase.source)
    ensures var v := Apply(w, a);
            v.proc.phase == w.proc.phase && v.disk.auth == w.disk.auth
              && KindOn(v.disk.journal) == KindOn(w.disk.journal)
            && v.spending == w.spending
  {
    SpendingMoves(w, a);
    hide KeysInJournal, LineageOk, Readable, EventKey, CommitFile, ProjectionFile, ClosureOk, WithContinuation,
         StopRecord,
         SpendOrigin, Spending.Reopened, Spending.Granted, Spending.Sent, Spending.Forgotten, Spending.Dropped;
  }

  lemma ArrivalEndsTheExchange(w: World, a: Action)
    requires Sound(w) && Budgeted(w) && Enabled(w, a) && (a.Install? || a.Import?)
    ensures Apply(w, a).proc.phase == w.proc.phase && Apply(w, a).spending == w.spending
    ensures Apply(w, a).disk == w.disk
            || (InExchange(w.proc.phase) ==> !Apply(w, a).disk.Current(w.proc.phase.source))
  {
    NewcomerIsUnspent(w, a);
    hide KeysInJournal, Readable, EventKey, Sound, JournalBudget, QuietWithoutJournal;
  }

  lemma StepKeepsCount(w: World, a: Action)
    requires Accounted(w) && Enabled(w, a)
    ensures ExchangeCounted(Apply(w, a).disk, Apply(w, a).proc.phase, Apply(w, a).spending.spends)
  {
    if a.Request? || a.Send? || a.Answer? {
      SendIsCounted(w, a);
    } else {
      hide Enabled, Apply, Sound, Budgeted, KindOn;
      var v := Apply(w, a);
      if InExchange(v.proc.phase) && v.disk.Current(v.proc.phase.source) {
        if a.Install? || a.Import? { ArrivalEndsTheExchange(w, a); } else { ExchangeIsLeftAlone(w, a); }
      }
    }
  }

  lemma {:induction false} RunKeepsAccounts(w: World, acts: seq<Action>)
    requires Accounted(w) && Legal(w, acts)
    ensures Accounted(Exec(w, acts))
    decreases |acts|
  {
    hide Enabled, Apply, Sound, Budgeted, OpenedByOwner, ExchangeCounted;
    if acts != [] {
      var n := |acts| - 1;
      var v := Exec(w, acts[..n]);
      RunKeepsAccounts(w, acts[..n]);
      StepKeepsSound(v, acts[n]);
      StepKeepsBudget(v, acts[n]);
      StepKeepsOwner(v, acts[n]);
      StepKeepsCount(v, acts[n]);
    }
  }

  // ----------------------------------------------------- what a forgotten budget allows

  lemma DropLeavesRefreshable(w: World, a: Action, r: Revision)
    requires Accounted(w) && Enabled(w, a) && a.DropReserved? && ForgetsBudget(w, a, r)
    ensures Refreshable(Apply(w, a), r) && r != ""
  {
    hide KeysInJournal, ControlOk, ClosureOk, Budgeted, Spending.Dropped;
  }

  lemma BlindCommitLeavesScheduled(w: World, a: Action, r: Revision) returns (next: Lane)
    requires Accounted(w) && Enabled(w, a) && a.Commit? && ForgetsBudget(w, a, r)
    ensures r != "" && w.spending.Of(r).sent.Of(KindOn(w.disk.journal)) >= 1
    ensures RecoveryScheduled(Apply(w, a), r, next, ONE_FIRST, a.now + RECOVERY_WINDOW, a.now + LONGEST_DELAY)
  {
    assert r in w.spending.spends && w.disk.auth.value.credential.Cookie?;
    hide KeysInJournal, ClosureOk, Budgeted, RecoveryScheduled;
    assert w.proc.phase.source == r && r != "" && w.proc.retained.None?;
    CommitsBlindlyAt(w, a, r);
    next := w.proc.phase.answer.lane;
  }

  // The recoveries that can still be dispatched, for any lane and first answer.
  function Remaining(spent: Lane, next: Lane): seq<Lane> {
    if spent == next then Repeat(spent, LaneLimit(spent) - 1) else Repeat(spent, LaneLimit(spent))
  }

  lemma DispatchesOneLaneMore(w: World, r: Revision, spent: Lane, next: Lane, deadline: int, open: int, from: int)
    returns (acts: seq<Action>, v: World, until: int, posted: Counts)
    requires RecoveryScheduled(w, r, next, ONE_FIRST, deadline, open) && from <= open
             && open + 5 * LONGEST_DELAY < deadline
    ensures Leads(w, acts, v, r, posted, from, until) && Careful(acts)
    ensures posted.Of(Recovery(spent)) == LaneLimit(spent)
  {
    hide Leads, RecoveryScheduled, Exchanging, Careful, Fits, Tally, Repeat;
    var c := ONE_FIRST.Plus(Recovery(next));
    var lanes := Remaining(spent, next);
    RepeatFits(c, spent, if spent == next then LaneLimit(spent) - 1 else LaneLimit(spent));
    var sending, u := SendsScheduled(w, r, next, ONE_FIRST, deadline, open, from);
    var rest, last, end := KeepsExchanging(u, r, Recovery(next), c, deadline, lanes, open);
    LeadsFurther(w, sending, u, rest, last, r, NONE.Plus(Recovery(next)), Tally(lanes), from, open, end);
    CarefulJoin(sending, rest);
    acts, v, until, posted := sending + rest, last, end, NONE.Plus(Recovery(next)).Add(Tally(lanes));
  }

  lemma CarefulJoin(acts: seq<Action>, more: seq<Action>)
    requires Careful(acts) && Careful(more)
    ensures Careful(acts + more)
  {
  }

  lemma StartsOver(w: World, r: Revision, spent: AttemptKind, now: int)
    returns (acts: seq<Action>, v: World, until: int, posted: Counts)
    requires Refreshable(w, r) && r != ""
    ensures Leads(w, acts, v, r, posted, now, until) && Careful(acts)
    ensures posted.Of(spent) == LANE_LIMITS.Of(spent)
  {
    hide Leads, Exchanging, Careful, Fits, Tally, Repeat, Refreshable;
    var first, u := FirstExchange(w, r, now);
    if spent.Normal? {
      acts, v, until, posted := first, u, now, ONE_FIRST;
    } else {
      var lanes := Repeat(spent.lane, LaneLimit(spent.lane));
      RepeatFits(ONE_FIRST, spent.lane, LaneLimit(spent.lane));
      var rest, last, end := KeepsExchanging(u, r, Normal, ONE_FIRST, now + RECOVERY_WINDOW, lanes, now);
      LeadsFurther(w, first, u, rest, last, r, ONE_FIRST, Tally(lanes), now, now, end);
      CarefulJoin(first, rest);
      acts, v, until, posted := first + rest, last, end, ONE_FIRST.Add(Tally(lanes));
    }
  }

  // ------------------------------------------------------------------ the exact limit

  lemma {:induction false} CarefulRemembers(w: World, acts: seq<Action>, r: Revision)
    requires Legal(w, acts) && Careful(acts)
    ensures Remembers(w, acts, r)
    decreases |acts|
  {
    hide Enabled, Apply;
    if acts != [] {
      CarefulRemembers(w, acts[..|acts| - 1], r);
      assert acts[|acts| - 1] in acts;
    }
  }

  lemma {:induction false} RemembersJoin(w: World, acts: seq<Action>, more: seq<Action>, r: Revision)
    requires Legal(w, acts) && Legal(Exec(w, acts), more) && Remembers(w, acts, r) && Remembers(Exec(w, acts), more, r)
    ensures Legal(w, acts + more) && Remembers(w, acts + more, r)
    decreases |more|
  {
    hide Enabled, Apply, ForgetsBudget;
    RunJoin(w, acts, more);
    if more == [] {
      assert acts + more == acts;
    } else {
      var n := |more| - 1;
      RemembersJoin(w, acts, more[..n], r);
      RunJoin(w, acts, more[..n]);
      assert (acts + more)[..|acts| + n] == acts + more[..n];
    }
  }

  // A run that goes on without forgetting the budget again and without turning a clock back.
  predicate Continues(w: World, acts: seq<Action>, more: seq<Action>, r: Revision, from: int)
    requires Legal(w, acts)
  {
    && Legal(Exec(w, acts), more) && Remembers(Exec(w, acts), more, r)
    && ClocksRise(more, LatestClock(acts, from))
  }

  ghost predicate StaysWithin(w: World, acts: seq<Action>, r: Revision, from: int)
    requires Legal(w, acts)
  {
    forall more | Continues(w, acts, more, r, from) ::
      Legal(w, acts + more) && WithinBudget(Posted(w, acts + more, r))
  }

  // One POST of a kind on top of a full lane is one too many.
  lemma OneTooMany(before: Counts, more: Counts, kind: AttemptKind)
    requires before.Of(kind) >= 1 && more.Of(kind) == LANE_LIMITS.Of(kind)
    ensures !WithinBudget(before.Add(more))
  {
    AddAgrees(before, more, kind);
  }

  lemma SomeKindWasSent(c: Counts) returns (kind: AttemptKind)
    requires c.Total() > 0
    ensures c.Of(kind) >= 1
  {
    kind := if c.first >= 1 then Normal
            else if c.safe >= 1 then Recovery(SafeRetry)
            else if c.validation >= 1 then Recovery(ValidationRecovery)
            else Recovery(AmbiguityReplay);
  }

  lemma ForgettingPostsNothing(w: World, a: Action, r: Revision)
    requires Enabled(w, a) && ForgetsBudget(w, a, r)
    ensures Sends(w, a, r) == NONE && (a.DropReserved? || (a.Commit? && KindOn(w.disk.journal).Recovery?))
    ensures a.DropReserved? ==> w.spending.TotalSent(r) > 0
    ensures a.Commit? ==> ClockOf(a) == Some(a.now)
  {
    hide Enabled;
  }

  // What was posted before the budget was forgotten, by a kind the run can now use up again.
  lemma SpentKind(w: World, acts: seq<Action>, a: Action, r: Revision) returns (kind: AttemptKind)
    requires Accounted(w) && w.spending == Spending(map[], {}) && Legal(w, acts) && Remembers(w, acts, r)
    requires Enabled(Exec(w, acts), a) && ForgetsBudget(Exec(w, acts), a, r)
    ensures Posted(w, acts, r).Of(kind) >= 1
    ensures a.Commit? ==> kind == KindOn(Exec(w, acts).disk.journal)
  {
    hide Enabled, Apply, Sound, Budgeted, OpenedByOwner, ExchangeCounted, Posted, Remembers, Exec, Legal, ForgetsBudget,
         Counts.Of, Counts.Add, Counts.Total;
    var v := Exec(w, acts);
    RunKeepsAccounts(w, acts);
    ForgettingPostsNothing(v, a, r);
    if a.DropReserved? {
      RunConserves(w, acts, r);
      kind := SomeKindWasSent(Posted(w, acts, r));
    } else {
      var next := BlindCommitLeavesScheduled(v, a, r);
      RunCounts(w, acts, r);
      AddAssociates(Posted(w, acts, r), NONE, NONE);
      kind := KindOn(v.disk.journal);
    }
  }

  // After a budget was forgotten some run uses up one lane again.
  lemma UsesUpAgain(v: World, a: Action, r: Revision, kind: AttemptKind, to: int)
    returns (more: seq<Action>, u: World, until: int, posted: Counts)
    requires Accounted(v) && Enabled(v, a) && ForgetsBudget(v, a, r)
    requires a.Commit? ==> kind == KindOn(v.disk.journal) && to == a.now
    ensures Leads(Apply(v, a), more, u, r, posted, to, until) && Careful(more)
    ensures posted.Of(kind) == LANE_LIMITS.Of(kind)
  {
    hide Apply, Enabled, Sound, Budgeted, OpenedByOwner, ExchangeCounted, ForgetsBudget, Leads, Careful, Refreshable,
         RecoveryScheduled;
    ForgettingPostsNothing(v, a, r);
    if a.DropReserved? {
      DropLeavesRefreshable(v, a, r);
      more, u, until, posted := StartsOver(Apply(v, a), r, kind, to);
    } else {
      var next := BlindCommitLeavesScheduled(v, a, r);
      more, u, until, posted := DispatchesOneLaneMore(Apply(v, a), r, kind.lane, next,
                                                      a.now + RECOVERY_WINDOW, a.now + LONGEST_DELAY, to);
    }
  }

  lemma Overruns(w: World, acts: seq<Action>, a: Action, r: Revision, from: int) returns (more: seq<Action>)
    requires Accounted(w) && w.spending == Spending(map[], {}) && Legal(w, acts) && Remembers(w, acts, r)
    requires Enabled(Exec(w, acts), a) && ForgetsBudget(Exec(w, acts), a, r)
    ensures Legal(w, acts + [a]) && Continues(w, acts + [a], more, r, from)
    ensures Legal(w, acts + [a] + more) && !WithinBudget(Posted(w, acts + [a] + more, r))
  {
    hide Enabled, Apply, Sound, Budgeted, OpenedByOwner, ExchangeCounted, Posted, Remembers, ForgetsBudget, Counts.Of,
         Counts.Add, Counts.Total, Careful, WithinBudget;
    var v := Exec(w, acts);
    RunKeepsAccounts(w, acts);
    RunExtends(w, acts, a);
    PostedNext(w, acts, a, r);
    ForgettingPostsNothing(v, a, r);
    AddAssociates(Posted(w, acts, r), NONE, NONE);
    var kind := SpentKind(w, acts, a, r);
    var u, until, posted;
    more, u, until, posted := UsesUpAgain(v, a, r, kind, LatestClock(acts + [a], from));
    CarefulRemembers(Apply(v, a), more, r);
    PostedJoin(w, acts + [a], more, r);
    OneTooMany(Posted(w, acts, r), posted, kind);
  }

  // The budget holds up to any step of a run that remembered it, and it goes on holding
  // exactly when that step does not forget it: otherwise some run goes on from there, with
  // no clock turned back and no further forgetting, to more POSTs than the budget allows.
  lemma BudgetHoldsExactlyUntilForgotten(d: Disk, owner: RefreshOwner, accepted: set<string>, acts: seq<Action>,
                                         a: Action, r: Revision, from: int)
    requires StartDisk(d, accepted) && Legal(StartWorld(d, owner, accepted), acts)
    requires Remembers(StartWorld(d, owner, accepted), acts, r)
    requires Enabled(Exec(StartWorld(d, owner, accepted), acts), a)
    ensures var w := StartWorld(d, owner, accepted);
            && Legal(w, acts + [a])
            && (StaysWithin(w, acts + [a], r, from) <==> !ForgetsBudget(Exec(w, acts), a, r))
  {
    hide Sound, Budgeted, StartDisk, StartWorld, Enabled, Apply, ForgetsBudget, WithinBudget, Posted, Continues;
    var w := StartWorld(d, owner, accepted);
    StartIsAccounted(d, owner, accepted);
    RunExtends(w, acts, a);
    if ForgetsBudget(Exec(w, acts), a, r) {
      var more := Overruns(w, acts, a, r, from);
    } else {
      forall more | Continues(w, acts + [a], more, r, from)
        ensures Legal(w, acts + [a] + more) && WithinBudget(Posted(w, acts + [a] + more, r))
      {
        StaysRemembered(w, acts, a, more, r, from);
        DispatchesStayWithinBudget(d, owner, accepted, acts + [a] + more, r);
      }
    }
  }

  lemma StartIsAccounted(d: Disk, owner: RefreshOwner, accepted: set<string>)
    requires StartDisk(d, accepted)
    ensures var w := StartWorld(d, owner, accepted); Accounted(w) && w.spending == Spending(map[], {})
  {
    hide Sound, Budgeted;
    StartIsBudgeted(d, owner, accepted);
  }

  lemma StaysRemembered(w: World, acts: seq<Action>, a: Action, more: seq<Action>, r: Revision, from: int)
    requires Legal(w, acts) && Remembers(w, acts, r) && Enabled(Exec(w, acts), a) && !ForgetsBudget(Exec(w, acts), a, r)
    requires Legal(w, acts + [a]) && Continues(w, acts + [a], more, r, from)
    ensures Legal(w, acts + [a] + more) && Remembers(w, acts + [a] + more, r)
  {
    hide Enabled, Apply, ForgetsBudget;
    assert (acts + [a])[..|acts|] == acts;
    RemembersJoin(w, acts + [a], more, r);
  }

  // ------------------------------------------------------------- how far past the limit

  lemma DropsAt(w: World, r: Revision, kind: AttemptKind, c: Counts, deadline: int)
    requires ReservedFor(w, r, kind, c, deadline)
    ensures Enabled(w, DropReserved(Done)) && Refreshable(Apply(w, DropReserved(Done)), r)
  {
    hide KeysInJournal, CountsOf, Readable, Holds, Spending.Dropped;
  }

  // A first request, an unclear answer, and the recovery reserved for it deleted unsent.
  lemma DropCycle(w: World, r: Revision, now: int) returns (acts: seq<Action>, v: World)
    requires Refreshable(w, r) && r != ""
    ensures Leads(w, acts, v, r, ONE_FIRST, now, now + SAFE_RETRY_DELAY) && Refreshable(v, r)
  {
    hide Leads, Enabled, Apply, Refreshable, RecoveryScheduled, ReservedFor, Exchanging, Careful, Counts.Add,
         Counts.Plus;
    var deadline, next := now + RECOVERY_WINDOW, now + SAFE_RETRY_DELAY;
    AddAssociates(ONE_FIRST, NONE, NONE);
    var first, sent := FirstExchange(w, r, now);
    var scheduling, scheduled := Reschedules(sent, r, Normal, ONE_FIRST, deadline, SafeRetry, now);
    LeadsFurther(w, first, sent, scheduling, scheduled, r, ONE_FIRST, NONE, now, now, now);
    var reserving, reserved := ReservesScheduled(scheduled, r, SafeRetry, ONE_FIRST, deadline, next, now);
    LeadsFurther(w, first + scheduling, scheduled, reserving, reserved, r, ONE_FIRST, NONE, now, now, next);
    DropsAt(reserved, r, Recovery(SafeRetry), ONE_FIRST.Plus(Recovery(SafeRetry)), deadline);
    LeadsOn(w, first + scheduling + reserving, reserved, DropReserved(Done), r, ONE_FIRST, now, next);
    acts, v := first + scheduling + reserving + [DropReserved(Done)], Apply(reserved, DropReserved(Done));
  }

  // Deleting recovery reservations allows any number of first requests, ten seconds apart.
  lemma {:induction false} DroppedBudgetsAreUnlimited(w: World, r: Revision, n: nat, now: int)
    returns (acts: seq<Action>, v: World)
    requires Refreshable(w, r) && r != ""
    ensures Leads(w, acts, v, r, Counts(n, 0, 0, 0), now, now + n * SAFE_RETRY_DELAY) && Refreshable(v, r)
    decreases n
  {
    hide Leads, Refreshable;
    if n == 0 {
      LeadsNowhere(w, r, now);
      acts, v := [], w;
    } else {
      var before, u := DroppedBudgetsAreUnlimited(w, r, n - 1, now);
      var to := now + (n - 1) * SAFE_RETRY_DELAY;
      var cycle, last := DropCycle(u, r, to);
      LeadsFurther(w, before, u, cycle, last, r, Counts(n - 1, 0, 0, 0), ONE_FIRST, now, to, to + SAFE_RETRY_DELAY);
      acts, v := before + cycle, last;
    }
  }

  // A safe retry whose unclear answer is committed without reading the journal.
  lemma BlindCycle(w: World, r: Revision, deadline: int, open: int, from: int)
    returns (acts: seq<Action>, v: World)
    requires RecoveryScheduled(w, r, SafeRetry, ONE_FIRST, deadline, open) && from <= open
    ensures Leads(w, acts, v, r, Counts(0, 1, 0, 0), from, open)
    ensures RecoveryScheduled(v, r, SafeRetry, ONE_FIRST, open + RECOVERY_WINDOW, open + SAFE_RETRY_DELAY)
  {
    hide Leads, Enabled, Apply, RecoveryScheduled, Careful, Holds, Readable;
    var kind, answer, commit := Recovery(SafeRetry), Answer(Unclear(SafeRetry)),
      Commit(open, UNCLEAR, None, false, Done);
    var sending, sent := SendsScheduled(w, r, SafeRetry, ONE_FIRST, deadline, open, from);
    AnswersAt(sent, r, kind, ONE_FIRST.Plus(kind), deadline, SafeRetry);
    LeadsOn(w, sending, sent, answer, r, Counts(0, 1, 0, 0), from, open);
    var answered := Apply(sent, answer);
    CommitIsEnabled(answered, commit);
    CommitsBlindlyAt(answered, commit, r);
    LeadsOn(w, sending + [answer], answered, commit, r, Counts(0, 1, 0, 0), from, open);
    acts, v := sending + [answer] + [commit], Apply(answered, commit);
  }

  lemma CommitIsEnabled(w: World, a: Action)
    requires a.Commit? && w.proc.phase.Answered? && !w.proc.importing && w.disk.Current(w.proc.phase.source)
    ensures Enabled(w, a)
  {
  }

  // Scheduling without having read the journal allows any number of safe retries.
  lemma {:induction false} BlindBudgetsAreUnlimited(w: World, r: Revision, n: nat, now: int)
    returns (acts: seq<Action>, v: World)
    requires Refreshable(w, r) && r != ""
    ensures Leads(w, acts, v, r, Counts(1, n, 0, 0), now, now + n * SAFE_RETRY_DELAY)
    ensures RecoveryScheduled(v, r, SafeRetry, ONE_FIRST, now + n * SAFE_RETRY_DELAY + RECOVERY_WINDOW,
                              now + (n + 1) * SAFE_RETRY_DELAY)
    decreases n
  {
    hide Leads, Refreshable, RecoveryScheduled, Exchanging, Careful;
    var to := now + n * SAFE_RETRY_DELAY;
    if n == 0 {
      var first, sent := FirstExchange(w, r, now);
      var scheduling, scheduled := Reschedules(sent, r, Normal, ONE_FIRST, now + RECOVERY_WINDOW, SafeRetry, now);
      LeadsFurther(w, first, sent, scheduling, scheduled, r, ONE_FIRST, NONE, now, now, now);
      acts, v := first + scheduling, scheduled;
    } else {
      var before, u := BlindBudgetsAreUnlimited(w, r, n - 1, now);
      var cycle, last := BlindCycle(u, r, to - SAFE_RETRY_DELAY + RECOVERY_WINDOW, to, to - SAFE_RETRY_DELAY);
      LeadsFurther(w, before, u, cycle, last, r, Counts(1, n - 1, 0, 0), Counts(0, 1, 0, 0), now,
                   to - SAFE_RETRY_DELAY, to);
      acts, v := before + cycle, last;
    }
  }
}
