// Startup recovery is restartable: cut off after any write and run again, it converges.
module StartupRecovery {
  import opened Wrappers
  import opened StateMachine
  import opened Journal
  import opened Outbox
  import opened Budget
  import opened Protocol
  import opened Plans

  // ------------------------------------------------------------------ plan algebra

  lemma {:induction false} PerformAppend(s: Snapshot, p: Plan, q: Plan)
    ensures Perform(s, p + q) == Perform(Perform(s, p), q)
    decreases |p|
  {
    if p == [] {
      assert p + q == q;
    } else {
      assert (p + q)[1..] == p[1..] + q;
      PerformAppend(s.After(p[0]), p[1..], q);
    }
  }

  // --------------------------------------------------------------- the destination

  // Where a journal ends up, without its timestamps.
  datatype End =
    | Gone
    | Untouched(file: JournalFile)
    | Is(state: RotationState, enqueued: bool, granted: Counts, kind: AttemptKind, cap: int)

  // What startup is heading for: the credential, the journal and every outcome that must
  // be accepted or waiting in the outbox.
  datatype Goal = Goal(auth: Option<StoredAuth>, journal: End, outcomes: set<string>)

  function EndOf(state: RotationState, enqueued: bool, a: RotationAttempt): End {
    Is(state, enqueued, CountsOf(a), a.kind, a.cap)
  }

  function Look(j: JournalFile): End {
    if j.HasContent() then EndOf(j.state, j.enqueued, j.attempt) else if j == NoJournal then Gone else Untouched(j)
  }

  predicate Acts(d: Disk) {
    d.auth.Some? && d.journal.Loads() && d.journal.HasContent()
  }

  predicate Installs(d: Disk) {
    Acts(d) && d.journal.state.Rotated? && !d.Current(d.journal.state.successor) && d.Current(d.journal.state.source)
    && d.auth.value.credential.Cookie?
  }

  // A ROTATED journal is deleted once its record is out of the outbox.
  function RotatedEnd(d: Disk, sink: string -> bool): End
    requires d.journal.HasContent() && d.journal.state.Rotated?
  {
    var j := d.journal;
    if sink(KeyOf(j.state)) || (j.enqueued && KeyOf(j.state) !in Keys(d.outbox)) then Gone
    else EndOf(j.state, true, j.attempt)
  }

  function GoalJournal(d: Disk, alive: RefreshOwner -> bool, sink: string -> bool): End {
    var j := d.journal;
    if !Acts(d) then Look(j)
    else if j.state.Rotated? && (d.Current(j.state.successor) || Installs(d)) then RotatedEnd(d, sink)
    else if !d.Current(j.state.source) then Gone
    else match j.state
      case Reserved(_) => Gone
      case Requested(source) =>
        if OwnerAlive(j.attempt, alive) then Look(j) else EndOf(OutcomeUnknown(source, EXITED), true, j.attempt)
      case Rotated(_, _, _) => Look(j)
      case _ => EndOf(j.state, true, j.attempt)
  }

  // The outcome startup still has to enqueue.
  function Pending(d: Disk, alive: RefreshOwner -> bool): set<string> {
    var j := d.journal;
    if !Acts(d) then {}
    else if j.state.Requested? && d.Current(j.state.source) && !OwnerAlive(j.attempt, alive)
    then {EventKey(j.state.source, UnknownOutcome)}
    else if j.state.Rotated? && !d.Current(j.state.successor) && d.Current(j.state.source) && !Installs(d) then {}
    else if j.state.Terminal() && !j.enqueued then {KeyOf(j.state)}
    else {}
  }

  function GoalOf(s: Snapshot, alive: RefreshOwner -> bool, sink: string -> bool): Goal {
    Goal(if Installs(s.disk) then Some(InstalledAuth(s.disk.journal.state)) else s.disk.auth,
         GoalJournal(s.disk, alive, sink),
         Keys(s.disk.outbox) + s.accepted + Pending(s.disk, alive))
  }

  // Every prefix of the plan is heading for the same goal.
  ghost predicate Steers(s: Snapshot, plan: Plan, alive: RefreshOwner -> bool, sink: string -> bool) {
    forall k :: 0 <= k <= |plan| ==> GoalOf(Perform(s, plan[..k]), alive, sink) == GoalOf(s, alive, sink)
  }

  lemma SteersAppend(s: Snapshot, p: Plan, q: Plan, alive: RefreshOwner -> bool, sink: string -> bool)
    requires Steers(s, p, alive, sink) && Steers(Perform(s, p), q, alive, sink)
    ensures Steers(s, p + q, alive, sink)
  {
    hide GoalOf, Perform;
    assert p[..|p|] == p;
    forall k | 0 <= k <= |p + q| ensures GoalOf(Perform(s, (p + q)[..k]), alive, sink) == GoalOf(s, alive, sink) {
      if k <= |p| {
        assert (p + q)[..k] == p[..k];
      } else {
        assert (p + q)[..k] == p + q[..k - |p|];
        PerformAppend(s, p, q[..k - |p|]);
      }
    }
  }

  lemma SteersOne(s: Snapshot, w: Write, alive: RefreshOwner -> bool, sink: string -> bool)
    requires GoalOf(s.After(w), alive, sink) == GoalOf(s, alive, sink)
    ensures Steers(s, [w], alive, sink)
  {
    hide GoalOf;
    assert Perform(s, [w]) == s.After(w);
    forall k | 0 <= k <= 1 ensures GoalOf(Perform(s, [w][..k]), alive, sink) == GoalOf(s, alive, sink) {
      if k == 1 { assert [w][..k] == [w]; } else { assert [w][..k] == []; }
    }
  }

  lemma SteersNothing(s: Snapshot, alive: RefreshOwner -> bool, sink: string -> bool)
    ensures Steers(s, [], alive, sink)
  {
  }

  lemma PerformOne(s: Snapshot, w: Write)
    ensures Perform(s, [w]) == s.After(w)
  {
    assert Perform(s.After(w), []) == s.After(w);
  }

  lemma PerformTwo(s: Snapshot, v: Write, w: Write)
    ensures Perform(s, [v, w]) == s.After(v).After(w)
  {
    PerformOne(s, v);
    PerformOne(s.After(v), w);
    PerformAppend(s, [v], [w]);
    assert [v] + [w] == [v, w];
  }

  lemma SteersTwo(s: Snapshot, v: Write, w: Write, alive: RefreshOwner -> bool, sink: string -> bool)
    requires GoalOf(s.After(v), alive, sink) == GoalOf(s, alive, sink)
    requires GoalOf(s.After(v).After(w), alive, sink) == GoalOf(s, alive, sink)
    ensures Steers(s, [v, w], alive, sink)
  {
    hide GoalOf, Perform;
    PerformOne(s, v);
    SteersOne(s, v, alive, sink);
    SteersOne(s.After(v), w, alive, sink);
    SteersAppend(s, [v], [w], alive, sink);
    assert [v] + [w] == [v, w];
  }

  // ------------------------------------------------------------------- draining

  function TakenBy(records: seq<OutboxRecord>, sink: string -> bool): set<string> {
    set key <- Keys(records) | sink(key)
  }

  lemma FirstTaken(records: seq<OutboxRecord>, sink: string -> bool)
    requires records != []
    ensures Keys(records) == {records[0].key} + Keys(records[1..])
    ensures TakenBy(records, sink) == (if sink(records[0].key) then {records[0].key} else {})
            + TakenBy(records[1..], sink)
  {
    assert records == [records[0]] + records[1..];
    KeysOfAppend([records[0]], records[1..]);
    assert Keys([records[0]]) == {records[0].key};
  }

  // What a drain leaves, for any outbox: the records the sink refused.
  lemma {:induction false} DrainLeaves(s: Snapshot, pending: seq<OutboxRecord>, sink: string -> bool)
    ensures var after := Perform(s, DrainPlan(pending, s.disk.outbox, sink));
            && after.disk.auth == s.disk.auth && after.disk.journal == s.disk.journal
            && Keys(after.disk.outbox) == Keys(s.disk.outbox) - TakenBy(pending, sink)
            && after.accepted == s.accepted + TakenBy(pending, sink)
    decreases |pending|
  {
    hide TakenBy, Keys, Acknowledged;
    if pending == [] {
      assert TakenBy(pending, sink) == {} by { NothingTaken(sink); }
    } else {
      var key, rest := pending[0].key, pending[1..];
      FirstTaken(pending, sink);
      if !sink(key) {
        DrainLeaves(s, rest, sink);
      } else {
        var left := Acknowledged(s.disk.outbox, key);
        AcknowledgeRemovesOneKey(s.disk.outbox, key);
        var t := s.After(Deliver(key)).After(PutOutbox(left));
        PerformTwo(s, Deliver(key), PutOutbox(left));
        PerformAppend(s, [Deliver(key), PutOutbox(left)], DrainPlan(rest, left, sink));
        DrainLeaves(t, rest, sink);
      }
    }
  }

  lemma NothingTaken(sink: string -> bool)
    ensures TakenBy([], sink) == {}
  {
  }

  lemma DrainingKeepsGoal(s: Snapshot, key: string, alive: RefreshOwner -> bool, sink: string -> bool)
    requires sink(key) && key in Keys(s.disk.outbox) + s.accepted
    ensures var t := s.After(Deliver(key));
            && GoalOf(t, alive, sink) == GoalOf(s, alive, sink)
            && GoalOf(t.After(PutOutbox(Acknowledged(s.disk.outbox, key))), alive, sink) == GoalOf(s, alive, sink)
  {
    hide Readable, EventKey, Acknowledged;
    AcknowledgeRemovesOneKey(s.disk.outbox, key);
  }

  lemma {:induction false} DrainSteers(s: Snapshot, pending: seq<OutboxRecord>, alive: RefreshOwner -> bool,
                                       sink: string -> bool)
    requires Keys(pending) <= Keys(s.disk.outbox) + s.accepted
    ensures Steers(s, DrainPlan(pending, s.disk.outbox, sink), alive, sink)
    decreases |pending|
  {
    hide Steers, GoalOf, Keys, Acknowledged, TakenBy;
    if pending == [] {
      SteersNothing(s, alive, sink);
    } else {
      var key, rest := pending[0].key, pending[1..];
      FirstTaken(pending, sink);
      if !sink(key) {
        DrainSteers(s, rest, alive, sink);
      } else {
        var left := Acknowledged(s.disk.outbox, key);
        var t := s.After(Deliver(key)).After(PutOutbox(left));
        DrainingKeepsGoal(s, key, alive, sink);
        SteersTwo(s, Deliver(key), PutOutbox(left), alive, sink);
        PerformTwo(s, Deliver(key), PutOutbox(left));
        AcknowledgeRemovesOneKey(s.disk.outbox, key);
        DrainSteers(t, rest, alive, sink);
        SteersAppend(s, [Deliver(key), PutOutbox(left)], DrainPlan(rest, left, sink), alive, sink);
      }
    }
  }

  // ------------------------------------------------------------ one journal at a time

  // A file written by the previous release is rewritten readably, unless it was a request
  // in flight (V2MigrationIsConservative).
  predicate Rewritable(j: JournalFile) {
    j.Migrated? ==> !j.state.Requested? && (j.state.OutcomeUnknown? || Readable(j.state, j.attempt))
  }

  // Nothing left to do.
  predicate AtGoal(s: Snapshot, alive: RefreshOwner -> bool, sink: string -> bool) {
    GoalOf(s, alive, sink) == Goal(s.disk.auth, Look(s.disk.journal), Keys(s.disk.outbox) + s.accepted)
  }

  // The journal holds a terminal outcome the coordinator records where it is.
  predicate Recording(d: Disk) {
    && Acts(d) && Rewritable(d.journal) && d.journal.state.Terminal()
    && (if d.journal.state.Rotated? then d.Current(d.journal.state.successor) else d.Current(d.journal.state.source))
  }

  function Marking(s: Snapshot): Plan
    requires Recording(s.disk)
  {
    var j := s.disk.journal;
    if j.enqueued then [] else EnqueuePlan(s.disk, j.state) + [PutJournal(Stored(j.state, true, j.attempt))]
  }

  lemma MarkingSteers(s: Snapshot, alive: RefreshOwner -> bool, sink: string -> bool)
    requires Recording(s.disk)
    ensures Steers(s, Marking(s), alive, sink)
    ensures var t, j := Perform(s, Marking(s)), s.disk.journal;
            && t.disk.auth == s.disk.auth && t.disk.journal.HasContent()
            && Look(t.disk.journal) == EndOf(j.state, true, j.attempt)
            && (j.state.Rotated? ==> Acts(t.disk))
  {
    hide Steers, Perform, EventKey;
    var j := s.disk.journal;
    if j.enqueued {
      SteersNothing(s, alive, sink);
      assert Perform(s, []) == s by { PerformNothing(s); }
    } else {
      var file := PutJournal(Stored(j.state, true, j.attempt));
      if KeyOf(j.state) in Keys(s.disk.outbox) {
        assert EnqueuePlan(s.disk, j.state) + [file] == [file];
        MarkKeepsGoal(s, alive, sink);
        SteersOne(s, file, alive, sink);
        PerformOne(s, file);
      } else {
        var enqueue := PutOutbox(Enqueued(s.disk.outbox, RecordOf(j.state)));
        EnqueueKeepsGoal(s, alive, sink);
        MarkKeepsGoal(s.After(enqueue), alive, sink);
        SteersTwo(s, enqueue, file, alive, sink);
        PerformTwo(s, enqueue, file);
        assert [enqueue] + [file] == [enqueue, file];
      }
    }
  }

  lemma PerformNothing(s: Snapshot)
    ensures Perform(s, []) == s
  {
  }

  lemma EnqueueKeepsGoal(s: Snapshot, alive: RefreshOwner -> bool, sink: string -> bool)
    requires Acts(s.disk) && s.disk.journal.state.Terminal() && !s.disk.journal.enqueued
    requires Pending(s.disk, alive) == {KeyOf(s.disk.journal.state)}
    ensures var t := s.After(PutOutbox(Enqueued(s.disk.outbox, RecordOf(s.disk.journal.state))));
            GoalOf(t, alive, sink) == GoalOf(s, alive, sink) && KeyOf(s.disk.journal.state) in Keys(t.disk.outbox)
  {
    hide Readable, EventKey, Keys;
    var record := RecordOf(s.disk.journal.state);
    KeysAfterEnqueue(s.disk.outbox, record);
  }

  lemma MarkKeepsGoal(s: Snapshot, alive: RefreshOwner -> bool, sink: string -> bool)
    requires Recording(s.disk) && !s.disk.journal.enqueued && KeyOf(s.disk.journal.state) in Keys(s.disk.outbox)
    ensures var t := s.After(PutJournal(Stored(s.disk.journal.state, true, s.disk.journal.attempt)));
            GoalOf(t, alive, sink) == GoalOf(s, alive, sink)
  {
    hide EventKey, Keys, AttemptIsValid;
  }

  lemma DeleteKeepsGoal(s: Snapshot, alive: RefreshOwner -> bool, sink: string -> bool)
    requires GoalJournal(s.disk, alive, sink) == Gone && Pending(s.disk, alive) == {} && !Installs(s.disk)
    ensures Steers(s, DeletePlan(s.disk), alive, sink)
    ensures Perform(s, DeletePlan(s.disk)).disk == s.disk.(journal := NoJournal)
    ensures AtGoal(Perform(s, DeletePlan(s.disk)), alive, sink)
  {
    hide EventKey, Keys, Readable, Steers, Perform;
    PerformNothing(s);
    PerformOne(s, PutJournal(NoJournal));
    if s.disk.journal == NoJournal {
      SteersNothing(s, alive, sink);
    } else {
      SteersOne(s, PutJournal(NoJournal), alive, sink);
    }
  }

  lemma RecordSteers(s: Snapshot, alive: RefreshOwner -> bool, sink: string -> bool)
    requires Recording(s.disk)
    ensures var j := s.disk.journal; var plan := RecordPlan(s, j.state, j.enqueued, j.attempt, sink);
            Steers(s, plan, alive, sink) && AtGoal(Perform(s, plan), alive, sink)
  {
    hide Steers, Perform, EventKey, Keys, Readable, Recording, GoalOf, Acts, Installs, GoalJournal, Pending, AtGoal,
         TakenBy;
    var j := s.disk.journal;
    assert j.HasTerminal() by { RecordingIsTerminal(s.disk); }
    var marking := Marking(s);
    var marked := Perform(s, marking);
    MarkingSteers(s, alive, sink);
    var draining := DrainPlan(marked.disk.outbox, marked.disk.outbox, sink);
    DrainSteers(marked, marked.disk.outbox, alive, sink);
    DrainLeaves(marked, marked.disk.outbox, sink);
    SteersAppend(s, marking, draining, alive, sink);
    PerformAppend(s, marking, draining);
    var drained := Perform(marked, draining);
    var deleting := if j.state.Rotated? && KeyOf(j.state) !in Keys(drained.disk.outbox) then DeletePlan(drained.disk)
      else [];
    if j.state.Rotated? && KeyOf(j.state) !in Keys(drained.disk.outbox) {
      DeliveredRotatedIsGone(s.disk, marked.disk, drained, alive, sink);
      DeleteKeepsGoal(drained, alive, sink);
    } else {
      SteersNothing(drained, alive, sink);
      PerformNothing(drained);
      RecordedIsAtGoal(s.disk, marked, drained, alive, sink);
    }
    SteersAppend(s, marking + draining, deleting, alive, sink);
    PerformAppend(s, marking + draining, deleting);
  }

  lemma RecordingIsTerminal(d: Disk)
    requires Recording(d)
    ensures d.journal.HasTerminal()
  {
  }

  lemma DeliveredRotatedIsGone(before: Disk, marked: Disk, s: Snapshot, alive: RefreshOwner -> bool,
                               sink: string -> bool)
    requires Recording(before) && before.journal.state.Rotated? && before.auth == s.disk.auth
    requires Acts(marked) && marked.auth == s.disk.auth && marked.journal == s.disk.journal
    requires Look(s.disk.journal) == EndOf(before.journal.state, true, before.journal.attempt)
    requires KeyOf(before.journal.state) !in Keys(s.disk.outbox)
    ensures GoalJournal(s.disk, alive, sink) == Gone && Pending(s.disk, alive) == {} && !Installs(s.disk)
  {
    hide EventKey, Keys, Readable;
  }

  lemma RecordedIsAtGoal(before: Disk, marked: Snapshot, s: Snapshot, alive: RefreshOwner -> bool, sink: string -> bool)
    requires Recording(before) && before.auth == s.disk.auth && s.disk.journal.HasContent()
    requires Look(s.disk.journal) == EndOf(before.journal.state, true, before.journal.attempt)
    requires Keys(s.disk.outbox) == Keys(marked.disk.outbox) - TakenBy(marked.disk.outbox, sink)
    requires before.journal.state.Rotated? ==> KeyOf(before.journal.state) in Keys(s.disk.outbox)
    ensures AtGoal(s, alive, sink)
  {
    hide EventKey, Keys, Readable;
  }

  // ------------------------------------------------------------ the whole startup

  lemma DiscardSteers(s: Snapshot, alive: RefreshOwner -> bool, sink: string -> bool)
    requires Acts(s.disk) && !s.disk.Current(s.disk.journal.state.source)
    requires s.disk.journal.state.Rotated? ==> !s.disk.Current(s.disk.journal.state.successor)
    ensures var plan := DiscardPlan(s.disk, s.disk.journal.state, s.disk.journal.enqueued);
            Steers(s, plan, alive, sink) && AtGoal(Perform(s, plan), alive, sink)
            && Perform(s, plan).disk.journal == NoJournal
  {
    hide Steers, Perform, EventKey, Keys, Readable;
    var j := s.disk.journal;
    var enqueuing := if j.state.Terminal() && !j.enqueued then EnqueuePlan(s.disk, j.state) else [];
    var t := Perform(s, enqueuing);
    if enqueuing == [] {
      SteersNothing(s, alive, sink);
      PerformNothing(s);
    } else {
      var enqueue := PutOutbox(Enqueued(s.disk.outbox, RecordOf(j.state)));
      assert enqueuing == [enqueue];
      EnqueueKeepsGoal(s, alive, sink);
      SteersOne(s, enqueue, alive, sink);
      PerformOne(s, enqueue);
    }
    DiscardedKeepsGoal(t, alive, sink);
    SteersAppend(s, enqueuing, DeletePlan(s.disk), alive, sink);
    PerformAppend(s, enqueuing, DeletePlan(s.disk));
  }

  lemma DiscardedKeepsGoal(s: Snapshot, alive: RefreshOwner -> bool, sink: string -> bool)
    requires Acts(s.disk) && !s.disk.Current(s.disk.journal.state.source)
    requires s.disk.journal.state.Rotated? ==> !s.disk.Current(s.disk.journal.state.successor)
    requires s.disk.journal.state.Terminal() && !s.disk.journal.enqueued ==>
             KeyOf(s.disk.journal.state) in Keys(s.disk.outbox)
    ensures Steers(s, DeletePlan(s.disk), alive, sink)
    ensures Perform(s, DeletePlan(s.disk)).disk == s.disk.(journal := NoJournal)
    ensures AtGoal(Perform(s, DeletePlan(s.disk)), alive, sink)
  {
    hide EventKey, Keys, Readable, Steers, Perform;
    PerformOne(s, PutJournal(NoJournal));
    SteersOne(s, PutJournal(NoJournal), alive, sink);
  }

  lemma InstallSteers(s: Snapshot, alive: RefreshOwner -> bool, sink: string -> bool)
    requires Acts(s.disk) && Rewritable(s.disk.journal) && s.disk.journal.state.Rotated?
    requires s.disk.Current(s.disk.journal.state.source) && !s.disk.Current(s.disk.journal.state.successor)
    ensures var j := s.disk.journal; var plan := InstallPlan(s, j.state, j.enqueued, j.attempt, sink);
            && Steers(s, plan, alive, sink) && AtGoal(Perform(s, plan), alive, sink)
  {
    hide Steers, Perform, EventKey, Keys, Readable;
    var j := s.disk.journal;
    if !s.disk.auth.value.credential.Cookie? {
      SteersNothing(s, alive, sink);
      PerformNothing(s);
    } else {
      var write := PutAuth(InstalledAuth(j.state));
      var t := s.After(write);
      PerformOne(s, write);
      SteersOne(s, write, alive, sink);
      RecordSteers(t, alive, sink);
      var recording := RecordPlan(t, j.state, j.enqueued, j.attempt, sink);
      SteersAppend(s, [write], recording, alive, sink);
      PerformAppend(s, [write], recording);
    }
  }

  lemma MarkUnknownSteers(s: Snapshot, now: int, alive: RefreshOwner -> bool, sink: string -> bool)
    requires Acts(s.disk) && Rewritable(s.disk.journal) && s.disk.journal.state.Requested?
    requires s.disk.Current(s.disk.journal.state.source) && !OwnerAlive(s.disk.journal.attempt, alive)
    ensures var j := s.disk.journal;
            var plan := MarkUnknownPlan(s, UnknownFile(j.state.source, EXITED, j.attempt, now), sink);
            Steers(s, plan, alive, sink) && AtGoal(Perform(s, plan), alive, sink)
  {
    hide Steers, Perform, EventKey, Keys, WithContinuation;
    var j := s.disk.journal;
    var file := UnknownFile(j.state.source, EXITED, j.attempt, now);
    SchedulingKeepsTheBudget(j.attempt, AmbiguityReplay, now + RECOVERY_WINDOW, now);
    SchedulingIsReadable(j.attempt, AmbiguityReplay, now + RECOVERY_WINDOW, now, j.state.source, EXITED);
    var t := s.After(PutJournal(file));
    PerformOne(s, PutJournal(file));
    SteersOne(s, PutJournal(file), alive, sink);
    RecordSteers(t, alive, sink);
    var recording := RecordPlan(t, file.state, false, file.attempt, sink);
    SteersAppend(s, [PutJournal(file)], recording, alive, sink);
    PerformAppend(s, [PutJournal(file)], recording);
  }

  lemma JournalStartupSteers(s: Snapshot, now: int, alive: RefreshOwner -> bool, sink: string -> bool)
    requires Rewritable(s.disk.journal)
    ensures var plan := StartupJournalPlan(s, now, alive, sink);
            Steers(s, plan, alive, sink) && AtGoal(Perform(s, plan), alive, sink)
  {
    hide Steers, Perform, EventKey, Keys, Readable, RecordPlan, InstallPlan, MarkUnknownPlan, DiscardPlan, UnknownFile;
    var d, j := s.disk, s.disk.journal;
    SteersNothing(s, alive, sink);
    PerformNothing(s);
    if Acts(d) {
      if j.state.Rotated? && d.Current(j.state.successor) { RecordSteers(s, alive, sink); }
      else if !d.Current(j.state.source) { DiscardSteers(s, alive, sink); }
      else if j.state.Rotated? { InstallSteers(s, alive, sink); }
      else if j.state.Reserved? { DeleteKeepsGoal(s, alive, sink); }
      else if j.state.Requested? {
        if !OwnerAlive(j.attempt, alive) { MarkUnknownSteers(s, now, alive, sink); }
      } else { RecordSteers(s, alive, sink); }
    }
  }

  lemma StartupSteers(s: Snapshot, now: int, alive: RefreshOwner -> bool, sink: string -> bool)
    requires Rewritable(s.disk.journal)
    ensures var plan := StartupPlan(s, now, alive, sink);
            Steers(s, plan, alive, sink) && AtGoal(Perform(s, plan), alive, sink)
  {
    hide Steers, Perform, EventKey, Keys, Readable, StartupJournalPlan, DrainPlan, TakenBy, GoalOf, AtGoal;
    if s.disk.auth.None? {
      SteersNothing(s, alive, sink);
      PerformNothing(s);
      NoCredentialIsAtGoal(s, alive, sink);
    } else {
      var draining := DrainPlan(s.disk.outbox, s.disk.outbox, sink);
      DrainSteers(s, s.disk.outbox, alive, sink);
      DrainLeaves(s, s.disk.outbox, sink);
      var t := Perform(s, draining);
      JournalStartupSteers(t, now, alive, sink);
      SteersAppend(s, draining, StartupJournalPlan(t, now, alive, sink), alive, sink);
      PerformAppend(s, draining, StartupJournalPlan(t, now, alive, sink));
    }
  }

  lemma NoCredentialIsAtGoal(s: Snapshot, alive: RefreshOwner -> bool, sink: string -> bool)
    requires s.disk.auth.None?
    ensures AtGoal(s, alive, sink)
  {
  }

  // --------------------------------------------------------------------- restarts

  predicate WritesCurrentVersion(plan: Plan) {
    forall w <- plan :: w.PutJournal? ==> !w.file.Migrated?
  }

  lemma {:induction false} CurrentVersionStaysRewritable(s: Snapshot, plan: Plan)
    requires Rewritable(s.disk.journal) && WritesCurrentVersion(plan)
    ensures Rewritable(Perform(s, plan).disk.journal)
    decreases |plan|
  {
    if plan != [] {
      assert plan[0] in plan;
      CurrentVersionStaysRewritable(s.After(plan[0]), plan[1..]);
    }
  }

  lemma {:induction false} DrainWritesNoJournal(pending: seq<OutboxRecord>, outbox: seq<OutboxRecord>,
                                                sink: string -> bool)
    ensures forall w <- DrainPlan(pending, outbox, sink) :: !w.PutJournal?
    decreases |pending|
  {
    if pending != [] {
      DrainWritesNoJournal(pending[1..], if sink(pending[0].key) then Acknowledged(outbox, pending[0].key)
                           else outbox, sink);
    }
  }

  lemma RecordWritesCurrentVersion(s: Snapshot, state: RotationState, enqueued: bool, attempt: RotationAttempt,
                                   sink: string -> bool)
    requires state.Terminal()
    ensures WritesCurrentVersion(RecordPlan(s, state, enqueued, attempt, sink))
  {
    hide Perform, EventKey, Keys, DrainPlan;
    var marking := if enqueued then [] else EnqueuePlan(s.disk, state) + [PutJournal(Stored(state, true, attempt))];
    var marked := Perform(s, marking);
    DrainWritesNoJournal(marked.disk.outbox, marked.disk.outbox, sink);
  }

  lemma StartupWritesCurrentVersion(s: Snapshot, now: int, alive: RefreshOwner -> bool, sink: string -> bool)
    ensures WritesCurrentVersion(StartupPlan(s, now, alive, sink))
  {
    hide Perform, EventKey, Keys, Readable, RecordPlan, DrainPlan;
    DrainWritesNoJournal(s.disk.outbox, s.disk.outbox, sink);
    forall t: Snapshot, state: RotationState, enqueued, attempt | state.Terminal()
      ensures WritesCurrentVersion(RecordPlan(t, state, enqueued, attempt, sink))
    {
      RecordWritesCurrentVersion(t, state, enqueued, attempt, sink);
    }
  }

  // Startup runs that were cut off: after how many writes, and at what time each began.
  datatype Cut = Cut(writes: nat, now: int)

  function AfterCuts(s: Snapshot, cuts: seq<Cut>, alive: RefreshOwner -> bool, sink: string -> bool): Snapshot
    decreases |cuts|
  {
    if cuts == [] then s
    else
      var plan := StartupPlan(s, cuts[0].now, alive, sink);
      var k := if cuts[0].writes <= |plan| then cuts[0].writes else |plan|;
      AfterCuts(Perform(s, plan[..k]), cuts[1..], alive, sink)
  }

  lemma {:induction false} CutsKeepTheGoal(s: Snapshot, cuts: seq<Cut>, alive: RefreshOwner -> bool,
                                           sink: string -> bool)
    requires Rewritable(s.disk.journal)
    ensures var t := AfterCuts(s, cuts, alive, sink);
            Rewritable(t.disk.journal) && GoalOf(t, alive, sink) == GoalOf(s, alive, sink)
    decreases |cuts|
  {
    hide Perform, StartupPlan, GoalOf, Rewritable;
    if cuts != [] {
      var plan := StartupPlan(s, cuts[0].now, alive, sink);
      var k := if cuts[0].writes <= |plan| then cuts[0].writes else |plan|;
      StartupSteers(s, cuts[0].now, alive, sink);
      StartupWritesCurrentVersion(s, cuts[0].now, alive, sink);
      CurrentVersionStaysRewritable(s, plan[..k]);
      CutsKeepTheGoal(Perform(s, plan[..k]), cuts[1..], alive, sink);
    }
  }

  // The same up to timestamps: credential, journal state, flag and budget, and the
  // outcomes accepted or still waiting.
  predicate Similar(a: Snapshot, b: Snapshot) {
    && a.disk.auth == b.disk.auth
    && Look(a.disk.journal) == Look(b.disk.journal)
    && Keys(a.disk.outbox) + a.accepted == Keys(b.disk.outbox) + b.accepted
  }

  // However often startup recovery is cut off, after whichever writes and at whatever
  // times, completing it once reaches what one uninterrupted run reaches.
  lemma RestartedStartupConverges(s: Snapshot, cuts: seq<Cut>, now: int, later: int, alive: RefreshOwner -> bool,
                                  sink: string -> bool)
    requires Rewritable(s.disk.journal)
    ensures var t := AfterCuts(s, cuts, alive, sink);
            Similar(Perform(t, StartupPlan(t, later, alive, sink)), Perform(s, StartupPlan(s, now, alive, sink)))
  {
    hide StartupPlan, AfterCuts, Rewritable, Perform;
    var t := AfterCuts(s, cuts, alive, sink);
    CutsKeepTheGoal(s, cuts, alive, sink);
    CompletedStartup(s, now, alive, sink);
    CompletedStartup(t, later, alive, sink);
  }

  lemma CompletedStartup(s: Snapshot, now: int, alive: RefreshOwner -> bool, sink: string -> bool)
    requires Rewritable(s.disk.journal)
    ensures var t, goal := Perform(s, StartupPlan(s, now, alive, sink)), GoalOf(s, alive, sink);
            t.disk.auth == goal.auth && Look(t.disk.journal) == goal.journal
              && Keys(t.disk.outbox) + t.accepted == goal.outcomes
  {
    hide StartupPlan, Rewritable, Perform, GoalOf, Look, Keys;
    var plan := StartupPlan(s, now, alive, sink);
    StartupSteers(s, now, alive, sink);
    assert plan[..|plan|] == plan;
  }

  // A ROTATED journal over its source ends with its successor in the credential file, if
  // and only if the stored credential is a cookie; and no outcome is lost on the way.
  lemma RotatedJournalIsAlwaysInstalled(s: Snapshot, cuts: seq<Cut>, later: int, alive: RefreshOwner -> bool,
                                        sink: string -> bool)
    requires Rewritable(s.disk.journal) && Acts(s.disk) && s.disk.journal.state.Rotated?
    requires s.disk.Current(s.disk.journal.state.source)
             && s.disk.journal.state.source != s.disk.journal.state.successor
    ensures var t := AfterCuts(s, cuts, alive, sink);
            Perform(t, StartupPlan(t, later, alive, sink)).disk.auth == Some(InstalledAuth(s.disk.journal.state))
            <==> s.disk.auth.value.credential.Cookie?
  {
    hide StartupPlan, AfterCuts, Rewritable, Perform, Readable;
    RestartedStartupConverges(s, cuts, later, later, alive, sink);
    CompletedStartup(s, later, alive, sink);
  }
}
