// Runs that can always be made: a first exchange, and after every unclear answer another
// one in any lane the durable budget still has open, with a clock that moves forward.
module Exchanges {
  import opened Wrappers
  import opened StateMachine
  import opened Journal
  import Outbox
  import opened Budget
  import opened Protocol
  import Invariants
  import opened Runs

  // No lane waits longer than this.
  const LONGEST_DELAY := 30

  // A run from w to v that posts `posted` for r and moves the clock from `from` to `to`.
  predicate Leads(w: World, acts: seq<Action>, v: World, r: Revision, posted: Counts, from: int, to: int) {
    && Legal(w, acts) && Exec(w, acts) == v && Posted(w, acts, r) == posted
    && ClocksRise(acts, from) && LatestClock(acts, from) == to
  }

  lemma LeadsNowhere(w: World, r: Revision, from: int)
    ensures Leads(w, [], w, r, NONE, from, from)
  {
    NothingPosted(w, r);
  }

  lemma LeadsOn(w: World, acts: seq<Action>, v: World, a: Action, r: Revision, posted: Counts, from: int, to: int)
    requires Leads(w, acts, v, r, posted, from, to) && Enabled(v, a)
    requires ClockOf(a).Some? ==> to <= ClockOf(a).value
    ensures Leads(w, acts + [a], Apply(v, a), r, posted.Add(Sends(v, a, r)), from,
                  if ClockOf(a).Some? then ClockOf(a).value else to)
  {
    hide Enabled, Apply, Sends, Counts.Add, ClockOf;
    PostedNext(w, acts, a, r);
    assert (acts + [a])[..|acts|] == acts;
  }

  lemma LeadsFurther(w: World, acts: seq<Action>, v: World, more: seq<Action>, u: World, r: Revision,
                     posted: Counts, extra: Counts, from: int, to: int, until: int)
    requires Leads(w, acts, v, r, posted, from, to) && Leads(v, more, u, r, extra, to, until)
    ensures Leads(w, acts + more, u, r, posted.Add(extra), from, until)
  {
    hide Enabled, Apply, Counts.Add;
    RunJoin(w, acts, more);
    PostedJoin(w, acts, more, r);
    ClocksJoin(acts, more, from);
  }

  // ------------------------------------------------------------ the states between

  // The process is free to act on the credential r.
  predicate Free(w: World, r: Revision) {
    && w.proc.AtRest() && OwnerIsValid(w.proc.owner)
    && w.disk.Current(r) && r != "" && w.disk.auth.value.credential.Cookie?
  }

  // A funded attempt with these counts and this deadline.
  predicate Holds(a: RotationAttempt, c: Counts, deadline: int) {
    Funded(a) && CountsOf(a) == c && a.deadline == Some(deadline)
  }

  // A recovery of r is scheduled and can be dispatched from `open` on.
  predicate RecoveryScheduled(w: World, r: Revision, lane: Lane, c: Counts, deadline: int, open: int) {
    var j := w.disk.journal;
    && Free(w, r) && j.Stored? && j.state.OutcomeUnknown? && j.state.source == r
    && Readable(j.state, j.attempt) && Holds(j.attempt, c, deadline)
    && j.attempt.continuation == Some(Continuation.Scheduled(lane))
    && j.attempt.nextAttemptAt.Some? && j.attempt.nextAttemptAt.value <= open < deadline
    && c.Of(Recovery(lane)) < LaneLimit(lane) && c.Total() < TOTAL_DISPATCH_CAP
  }

  // Its outcome is queued for delivery, and then recorded as queued.
  predicate Awaiting(w: World, r: Revision, lane: Lane, c: Counts, deadline: int, open: int) {
    RecoveryScheduled(w, r, lane, c, deadline, open) && KeyOf(w.disk.journal.state) in Outbox.Keys(w.disk.outbox)
  }

  predicate Flagged(w: World, r: Revision, lane: Lane, c: Counts, deadline: int, open: int) {
    RecoveryScheduled(w, r, lane, c, deadline, open) && w.disk.journal.enqueued
  }

  predicate ReservedFor(w: World, r: Revision, kind: AttemptKind, c: Counts, deadline: int) {
    var j := w.disk.journal;
    && Free(w, r) && j.Stored? && j.state == Reserved(r) && j.attempt.kind == kind
    && AttemptOwner(j.attempt) == Some(w.proc.owner) && Readable(j.state, j.attempt)
    && j.attempt.continuation.None? && Holds(j.attempt, c, deadline)
  }

  // A dispatch of r is about to be sent, was sent, or was answered.
  predicate Exchanging(w: World, r: Revision, kind: AttemptKind, c: Counts, deadline: int) {
    var j := w.disk.journal;
    && Free(w.(proc := w.proc.(phase := Idle)), r) && Invariants.InExchange(w.proc.phase) && w.proc.phase.source == r
    && (w.proc.phase.Sending? ==> w.proc.phase.kind == kind)
    && Invariants.RequestedBy(j, w.proc.owner, r) && j.attempt.kind == kind && Readable(j.state, j.attempt)
    && j.attempt.continuation.None? && Holds(j.attempt, c, deadline)
  }

  // ------------------------------------------------------------------------ steps

  lemma BeginsAt(w: World, r: Revision, now: int)
    requires Refreshable(w, r) && r != ""
    ensures Enabled(w, Action.Begin(now, Done))
    ensures ReservedFor(Apply(w, Action.Begin(now, Done)), r, Normal, ONE_FIRST, now + RECOVERY_WINDOW)
  {
    hide KeysInJournal, Spending.Reopened;
  }

  lemma RequestsAt(w: World, r: Revision, kind: AttemptKind, c: Counts, deadline: int)
    requires ReservedFor(w, r, kind, c, deadline)
    ensures Enabled(w, Request(Done))
    ensures Exchanging(Apply(w, Request(Done)), r, kind, c, deadline) && Apply(w, Request(Done)).proc.phase.Sending?
  {
    hide KeysInJournal, CountsOf;
  }

  lemma SendsAt(w: World, r: Revision, kind: AttemptKind, c: Counts, deadline: int)
    requires Exchanging(w, r, kind, c, deadline) && w.proc.phase.Sending?
    ensures Enabled(w, Send) && Sends(w, Send, r) == NONE.Plus(kind)
    ensures Exchanging(Apply(w, Send), r, kind, c, deadline) && Apply(w, Send).proc.phase.InFlight?
  {
    hide CountsOf, Spending.Sent, Funded, Readable;
  }

  lemma AnswersAt(w: World, r: Revision, kind: AttemptKind, c: Counts, deadline: int, lane: Lane)
    requires Exchanging(w, r, kind, c, deadline) && w.proc.phase.InFlight?
    ensures Enabled(w, Answer(Unclear(lane)))
    ensures Exchanging(Apply(w, Answer(Unclear(lane))), r, kind, c, deadline)
    ensures Apply(w, Answer(Unclear(lane))).proc.phase == Answered(r, Unclear(lane))
  {
    hide CountsOf, Funded, Readable;
  }

  const UNCLEAR := "unclear"

  // Scheduling within the window leaves the lane open.
  lemma LaneOpens(a: RotationAttempt, lane: Lane, c: Counts, deadline: int, freshDeadline: int, now: int, r: Revision,
                  reason: string, responseClass: Option<string>)
    requires Funded(a) && CountsOf(a) == c && a.continuation.None? && r != ""
    requires a.deadline == Some(deadline) || (a.deadline.None? && freshDeadline == deadline)
    requires c.Of(Recovery(lane)) < LaneLimit(lane) && c.Total() < TOTAL_DISPATCH_CAP
    requires now + LONGEST_DELAY < deadline
    ensures var next := WithContinuation(a, lane, freshDeadline, now).(responseClass := responseClass);
            && Readable(OutcomeUnknown(r, reason), next) && Holds(next, c, deadline)
            && next.continuation == Some(Continuation.Scheduled(lane))
            && next.nextAttemptAt == Some(now + LaneDelay(lane))
  {
  }

  lemma CommitsAt(w: World, r: Revision, kind: AttemptKind, c: Counts, deadline: int, lane: Lane, now: int)
    requires Exchanging(w, r, kind, c, deadline) && w.proc.phase == Answered(r, Unclear(lane))
    requires c.Of(Recovery(lane)) < LaneLimit(lane) && c.Total() < TOTAL_DISPATCH_CAP
    requires now + LONGEST_DELAY < deadline
    ensures var a := Commit(now, UNCLEAR, None, true, Done);
            Enabled(w, a) && RecoveryScheduled(Apply(w, a), r, lane, c, deadline, now + LaneDelay(lane))
  {
    LaneOpens(w.disk.journal.attempt, lane, c, deadline, now + RECOVERY_WINDOW, now, r, UNCLEAR, None);
    hide KeysInJournal, CountsOf, Readable, WithContinuation, Funded, Counts.Of, Counts.Total, Holds;
    assert w.disk.journal.Read().JournalLoaded?;
    assert AttemptFor(w.disk.journal, r, true) == w.disk.journal.attempt;
  }

  // A commit that cannot read the journal schedules under the budget of a first dispatch.
  lemma CommitsBlindlyAt(w: World, a: Action, r: Revision)
    requires Enabled(w, a) && SchedulesBlindly(w, a) && w.proc.phase.source == r && r != ""
    requires OwnerIsValid(w.proc.owner) && w.proc.retained.None? && w.disk.auth.value.credential.Cookie?
    ensures RecoveryScheduled(Apply(w, a), r, w.proc.phase.answer.lane, ONE_FIRST, a.now + RECOVERY_WINDOW,
                              a.now + LONGEST_DELAY)
    ensures RecoveryScheduled(Apply(w, a), r, w.proc.phase.answer.lane, ONE_FIRST, a.now + RECOVERY_WINDOW,
                      a.now + LaneDelay(w.proc.phase.answer.lane))
  {
    assert CountsOf(FreshAttempt(r, 1)) == ONE_FIRST;
    LaneOpens(FreshAttempt(r, 1), w.proc.phase.answer.lane, ONE_FIRST, a.now + RECOVERY_WINDOW,
              a.now + RECOVERY_WINDOW, a.now, r, a.reason, a.responseClass);
    hide KeysInJournal, CountsOf, Readable, WithContinuation, Funded, Holds, Spending.Forgotten;
  }

  lemma EnqueuesAt(w: World, r: Revision, lane: Lane, c: Counts, deadline: int, open: int) returns (a: Action)
    requires RecoveryScheduled(w, r, lane, c, deadline, open)
    ensures a.Enqueue? && Enabled(w, a) && Awaiting(Apply(w, a), r, lane, c, deadline, open)
  {
    a := Enqueue(Outbox.RecordOf(w.disk.journal.state), Done);
    Outbox.KeysAfterEnqueue(w.disk.outbox, Outbox.RecordOf(w.disk.journal.state));
    hide CountsOf, Readable, Funded, Counts.Of, Counts.Total, Holds, Outbox.Enqueued, Outbox.Keys, EventKey;
  }

  lemma FlagsAt(w: World, r: Revision, lane: Lane, c: Counts, deadline: int, open: int)
    requires Awaiting(w, r, lane, c, deadline, open)
    ensures Enabled(w, MarkEnqueued(Done)) && Flagged(Apply(w, MarkEnqueued(Done)), r, lane, c, deadline, open)
  {
    hide KeysInJournal, CountsOf, Readable, Funded, Counts.Of, Counts.Total, Holds, Outbox.Keys, EventKey;
  }

  // The scheduled attempt spends one unit of its lane.
  lemma LaneSpends(a: RotationAttempt, lane: Lane, c: Counts, deadline: int, now: int, owner: RefreshOwner)
    requires Holds(a, c, deadline) && a.continuation == Some(Continuation.Scheduled(lane)) && now < deadline
    requires c.Of(Recovery(lane)) < LaneLimit(lane) && c.Total() < TOTAL_DISPATCH_CAP && OwnerIsValid(owner)
    ensures NextRecoveryAttempt(a, now).Some?
    ensures var next := Owned(NextRecoveryAttempt(a, now).value, owner);
            && Holds(next, c.Plus(Recovery(lane)), deadline) && next.kind == Recovery(lane) && next.continuation.None?
            && AttemptOwner(next) == Some(owner) && (forall r: Revision :: r != "" ==> Readable(Reserved(r), next))
  {
  }

  lemma RetriesAt(w: World, r: Revision, lane: Lane, c: Counts, deadline: int, open: int)
    requires Flagged(w, r, lane, c, deadline, open)
    ensures Enabled(w, Retry(open, Done))
    ensures ReservedFor(Apply(w, Retry(open, Done)), r, Recovery(lane), c.Plus(Recovery(lane)), deadline)
  {
    LaneSpends(w.disk.journal.attempt, lane, c, deadline, open, w.proc.owner);
    hide KeysInJournal, CountsOf, Readable, Funded, Counts.Of, Counts.Total, Counts.Plus, Holds, NextRecoveryAttempt,
         Spending.Granted, Owned;
  }

  // -------------------------------------------------------------------- exchanges

  // The steps that touch neither a reservation nor a journal they have not read.
  predicate Careful(acts: seq<Action>) {
    forall a <- acts :: !a.DropReserved? && (a.Commit? ==> a.readable)
  }

  // Sends the first request of a revision.
  lemma FirstExchange(w: World, r: Revision, now: int) returns (acts: seq<Action>, v: World)
    requires Refreshable(w, r) && r != ""
    ensures Leads(w, acts, v, r, ONE_FIRST, now, now) && Careful(acts)
    ensures Exchanging(v, r, Normal, ONE_FIRST, now + RECOVERY_WINDOW) && v.proc.phase.InFlight?
  {
    hide Leads, Enabled, Apply, Refreshable, ReservedFor, Exchanging;
    var deadline := now + RECOVERY_WINDOW;
    LeadsNowhere(w, r, now);
    BeginsAt(w, r, now);
    LeadsOn(w, [], w, Action.Begin(now, Done), r, NONE, now, now);
    acts, v := [] + [Action.Begin(now, Done)], Apply(w, Action.Begin(now, Done));
    RequestsAt(v, r, Normal, ONE_FIRST, deadline);
    acts, v := SentFrom(w, acts, v, r, Normal, ONE_FIRST, deadline, NONE, now, now);
  }

  // Requests and sends what is reserved.
  lemma SentFrom(w: World, before: seq<Action>, u: World, r: Revision, kind: AttemptKind, c: Counts, deadline: int,
                 posted: Counts, from: int, to: int) returns (acts: seq<Action>, v: World)
    requires Leads(w, before, u, r, posted, from, to) && Careful(before) && ReservedFor(u, r, kind, c, deadline)
    ensures Leads(w, acts, v, r, posted.Add(NONE.Plus(kind)), from, to) && Careful(acts)
    ensures Exchanging(v, r, kind, c, deadline) && v.proc.phase.InFlight?
  {
    hide Leads, Enabled, Apply, ReservedFor, Exchanging, Counts.Add, Counts.Plus;
    RequestsAt(u, r, kind, c, deadline);
    LeadsOn(w, before, u, Request(Done), r, posted, from, to);
    var requested := Apply(u, Request(Done));
    SendsAt(requested, r, kind, c, deadline);
    AddAssociates(posted, NONE, NONE);
    LeadsOn(w, before + [Request(Done)], requested, Send, r, posted, from, to);
    acts, v := before + [Request(Done)] + [Send], Apply(requested, Send);
  }

  // Records a scheduled recovery as delivered for sending and reserves it.
  lemma ReservesScheduled(w: World, r: Revision, lane: Lane, c: Counts, deadline: int, open: int, from: int)
    returns (acts: seq<Action>, v: World)
    requires RecoveryScheduled(w, r, lane, c, deadline, open) && from <= open
    ensures Leads(w, acts, v, r, NONE, from, open) && Careful(acts)
    ensures acts != [] && acts[|acts| - 1] == Retry(open, Done)
    ensures ReservedFor(v, r, Recovery(lane), c.Plus(Recovery(lane)), deadline)
  {
    hide Leads, Enabled, Apply, RecoveryScheduled, Awaiting, Flagged, ReservedFor, Counts.Add, Counts.Plus;
    LeadsNowhere(w, r, from);
    AddAssociates(NONE, NONE, NONE);
    var enqueue := EnqueuesAt(w, r, lane, c, deadline, open);
    LeadsOn(w, [], w, enqueue, r, NONE, from, from);
    assert [] + [enqueue] == [enqueue];
    var queued := Apply(w, enqueue);
    FlagsAt(queued, r, lane, c, deadline, open);
    LeadsOn(w, [enqueue], queued, MarkEnqueued(Done), r, NONE, from, from);
    var flagged := Apply(queued, MarkEnqueued(Done));
    RetriesAt(flagged, r, lane, c, deadline, open);
    LeadsOn(w, [enqueue] + [MarkEnqueued(Done)], flagged, Retry(open, Done), r, NONE, from, from);
    acts, v := [enqueue] + [MarkEnqueued(Done)] + [Retry(open, Done)], Apply(flagged, Retry(open, Done));
  }

  // Reserves a scheduled recovery and sends it.
  lemma SendsScheduled(w: World, r: Revision, lane: Lane, c: Counts, deadline: int, open: int, from: int)
    returns (acts: seq<Action>, v: World)
    requires RecoveryScheduled(w, r, lane, c, deadline, open) && from <= open
    ensures Leads(w, acts, v, r, NONE.Plus(Recovery(lane)), from, open) && Careful(acts)
    ensures Exchanging(v, r, Recovery(lane), c.Plus(Recovery(lane)), deadline) && v.proc.phase.InFlight?
  {
    hide Leads, RecoveryScheduled, ReservedFor, Exchanging, Counts.Add, Counts.Plus, Careful;
    var reserving, reserved := ReservesScheduled(w, r, lane, c, deadline, open, from);
    acts, v := SentFrom(w, reserving, reserved, r, Recovery(lane), c.Plus(Recovery(lane)), deadline, NONE, from, open);
    AddAssociates(NONE.Plus(Recovery(lane)), NONE, NONE);
  }

  // An unclear answer schedules the lane it names.
  lemma Reschedules(w: World, r: Revision, kind: AttemptKind, c: Counts, deadline: int, lane: Lane, now: int)
    returns (acts: seq<Action>, v: World)
    requires Exchanging(w, r, kind, c, deadline) && w.proc.phase.InFlight?
    requires c.Of(Recovery(lane)) < LaneLimit(lane) && c.Total() < TOTAL_DISPATCH_CAP && now + LONGEST_DELAY < deadline
    ensures Leads(w, acts, v, r, NONE, now, now) && Careful(acts)
    ensures RecoveryScheduled(v, r, lane, c, deadline, now + LaneDelay(lane))
  {
    hide Leads, Enabled, Apply, RecoveryScheduled, Exchanging, Counts.Add, Counts.Total, Counts.Of;
    LeadsNowhere(w, r, now);
    AddAssociates(NONE, NONE, NONE);
    AnswersAt(w, r, kind, c, deadline, lane);
    LeadsOn(w, [], w, Answer(Unclear(lane)), r, NONE, now, now);
    var answered := Apply(w, Answer(Unclear(lane)));
    CommitsAt(answered, r, kind, c, deadline, lane, now);
    var commit := Commit(now, UNCLEAR, None, true, Done);
    LeadsOn(w, [] + [Answer(Unclear(lane))], answered, commit, r, NONE, now, now);
    acts, v := [] + [Answer(Unclear(lane))] + [commit], Apply(answered, commit);
  }

  // The lanes can be dispatched in this order under these counts.
  predicate Fits(c: Counts, lanes: seq<Lane>)
    decreases |lanes|
  {
    lanes == [] ||
    (c.Of(Recovery(lanes[0])) < LaneLimit(lanes[0]) && c.Total() < TOTAL_DISPATCH_CAP
     && Fits(c.Plus(Recovery(lanes[0])), lanes[1..]))
  }

  function Tally(lanes: seq<Lane>): Counts
    decreases |lanes|
  {
    if lanes == [] then NONE else NONE.Plus(Recovery(lanes[0])).Add(Tally(lanes[1..]))
  }

  // One exchange after another, in every order of lanes the budget allows.
  lemma {:induction false} KeepsExchanging(w: World, r: Revision, kind: AttemptKind, c: Counts, deadline: int,
                                           lanes: seq<Lane>,
                                     now: int) returns (acts: seq<Action>, v: World, until: int)
    requires Exchanging(w, r, kind, c, deadline) && w.proc.phase.InFlight? && Fits(c, lanes)
    requires now + LONGEST_DELAY * |lanes| < deadline
    ensures Leads(w, acts, v, r, Tally(lanes), now, until) && Careful(acts)
    decreases |lanes|
  {
    hide Leads, Enabled, Apply, RecoveryScheduled, Exchanging, Counts.Add, Counts.Total, Counts.Of, Counts.Plus;
    if lanes == [] {
      LeadsNowhere(w, r, now);
      acts, v, until := [], w, now;
    } else {
      var lane := lanes[0];
      var scheduling, scheduled := Reschedules(w, r, kind, c, deadline, lane, now);
      var next := now + LaneDelay(lane);
      var sending, sent := SendsScheduled(scheduled, r, lane, c, deadline, next, now);
      LeadsFurther(w, scheduling, scheduled, sending, sent, r, NONE, NONE.Plus(Recovery(lane)), now, now, next);
      AddAssociates(NONE.Plus(Recovery(lane)), NONE, NONE);
      var rest, last, end :=
        KeepsExchanging(sent, r, Recovery(lane), c.Plus(Recovery(lane)), deadline, lanes[1..], next);
      LeadsFurther(w, scheduling + sending, sent, rest, last, r, NONE.Plus(Recovery(lane)), Tally(lanes[1..]), now,
                   next, end);
      acts, v, until := scheduling + sending + rest, last, end;
    }
  }

  // ------------------------------------------------------- using one lane to its end

  function Repeat(lane: Lane, n: nat): seq<Lane> {
    if n == 0 then [] else [lane] + Repeat(lane, n - 1)
  }

  lemma OneMore(c: Counts, kind: AttemptKind)
    ensures c.Plus(kind).Of(kind) == c.Of(kind) + 1 && c.Plus(kind).Total() == c.Total() + 1
    ensures NONE.Of(kind) == 0
  {
  }

  lemma AddAgrees(a: Counts, b: Counts, kind: AttemptKind)
    ensures a.Add(b).Of(kind) == a.Of(kind) + b.Of(kind)
  {
  }

  lemma {:induction false} RepeatFits(c: Counts, lane: Lane, n: nat)
    requires c.Of(Recovery(lane)) + n <= LaneLimit(lane) && c.Total() + n <= TOTAL_DISPATCH_CAP
    ensures Fits(c, Repeat(lane, n)) && |Repeat(lane, n)| == n && Tally(Repeat(lane, n)).Of(Recovery(lane)) == n
    decreases n
  {
    hide Counts.Of, Counts.Total, Counts.Plus, Counts.Add, LaneLimit;
    var kind := Recovery(lane);
    OneMore(NONE, kind);
    if n > 0 {
      OneMore(c, kind);
      RepeatFits(c.Plus(kind), lane, n - 1);
      assert Repeat(lane, n)[1..] == Repeat(lane, n - 1);
      AddAgrees(NONE.Plus(kind), Tally(Repeat(lane, n - 1)), kind);
    }
  }
}
