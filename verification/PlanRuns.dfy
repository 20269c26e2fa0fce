// Every coordinator operation is a run of the protocol, write by write, so whatever is
// proved of all runs holds of the coordinator wherever it is cut off.
module PlanRuns {
  import opened Wrappers
  import opened StateMachine
  import opened Journal
  import opened Outbox
  import opened Budget
  import opened Protocol
  import opened Invariants
  import opened Plans
  import opened Runs
  import opened StartupRecovery
  import StoppedRevisions
  import DispatchBudget
  import opened OutcomeDelivery
  import opened Successors

  function Snap(w: World): Snapshot {
    Snapshot(w.disk, w.outcomes.accepted)
  }

  // One protocol step per write, and after each the same disk and the same deliveries.
  ghost predicate Mirrors(w: World, plan: Plan, acts: seq<Action>) {
    && |acts| == |plan| && Legal(w, acts)
    && (forall k :: 0 <= k <= |plan| ==> Follows(w, plan, acts, k))
  }

  predicate Follows(w: World, plan: Plan, acts: seq<Action>, k: nat)
    requires k <= |plan| == |acts| && Legal(w, acts)
  {
    PrefixIsLegal(w, acts, k);
    Snap(Exec(w, acts[..k])) == Perform(Snap(w), plan[..k])
  }

  lemma MirrorNothing(w: World)
    ensures Mirrors(w, [], []) && Exec(w, []) == w
  {
    hide Enabled, Apply;
  }

  lemma MirrorOne(w: World, write: Write, a: Action)
    requires Enabled(w, a) && Snap(Apply(w, a)) == Snap(w).After(write)
    ensures Mirrors(w, [write], [a]) && Exec(w, [a]) == Apply(w, a)
  {
    hide Enabled, Apply;
    RunExtends(w, [], a);
    assert [] + [a] == [a];
    PerformOne(Snap(w), write);
    forall k | 0 <= k <= 1 ensures Follows(w, [write], [a], k) {
      PrefixIsLegal(w, [a], k);
      if k == 0 {
        assert [a][..k] == [] && [write][..k] == [];
      } else {
        assert [a][..k] == [a] && [write][..k] == [write];
      }
    }
  }

  lemma MirrorJoin(w: World, p: Plan, acts: seq<Action>, q: Plan, more: seq<Action>)
    requires Mirrors(w, p, acts) && Mirrors(Exec(w, acts), q, more)
    ensures Mirrors(w, p + q, acts + more) && Exec(w, acts + more) == Exec(Exec(w, acts), more)
    ensures Snap(Exec(w, acts)) == Perform(Snap(w), p)
  {
    hide Enabled, Apply, Perform;
    RunJoin(w, acts, more);
    assert Follows(w, p, acts, |p|);
    assert acts[..|p|] == acts && p[..|p|] == p;
    forall k | 0 <= k <= |p + q| ensures Follows(w, p + q, acts + more, k) {
      PrefixIsLegal(w, acts + more, k);
      if k <= |p| {
        assert Follows(w, p, acts, k);
        assert (acts + more)[..k] == acts[..k] && (p + q)[..k] == p[..k];
      } else {
        var i := k - |p|;
        assert Follows(Exec(w, acts), q, more, i);
        PrefixIsLegal(Exec(w, acts), more, i);
        RunJoin(w, acts, more[..i]);
        PerformAppend(Snap(w), p, q[..i]);
        assert (acts + more)[..k] == acts + more[..i] && (p + q)[..k] == p + q[..i];
      }
    }
  }

  lemma MirrorEnds(w: World, p: Plan, acts: seq<Action>)
    requires Mirrors(w, p, acts)
    ensures Legal(w, acts) && Snap(Exec(w, acts)) == Perform(Snap(w), p)
  {
    hide Enabled, Apply, Perform;
    assert Follows(w, p, acts, |p|);
    assert acts[..|p|] == acts && p[..|p|] == p;
  }

  // The steps of a lock section that leave the process as it is.
  predicate LeavesProcess(a: Action) {
    a.Begin? || a.Retry? || a.Install? || a.Project? || a.Rerecord? || a.MarkUnknown? || a.Stop? || a.Enqueue?
      || a.MarkEnqueued?
    || a.Accept? || a.Acknowledge? || a.DropReserved? || a.DropProjected? || a.DropStale?
  }

  predicate DiskOnly(acts: seq<Action>) {
    forall a <- acts :: LeavesProcess(a)
  }

  // Preparation changes the process only by its last write, the REQUESTED record.
  predicate Prepares(acts: seq<Action>) {
    DiskOnly(acts) || (acts != [] && DiskOnly(acts[..|acts| - 1]) && acts[|acts| - 1] == Request(Done))
  }

  lemma PreparesAfter(first: seq<Action>, rest: seq<Action>)
    requires DiskOnly(first) && Prepares(rest)
    ensures Prepares(first + rest)
  {
    if !DiskOnly(rest) {
      assert (first + rest)[..|first + rest| - 1] == first + rest[..|rest| - 1];
    }
  }

  // ------------------------------------------------------------------- the outbox

  // What an operation leaves alone.
  predicate SameExceptDisk(w: World, v: World) {
    v.proc == w.proc && v.line == w.line
  }

  lemma DeliveryStep(w: World, key: string)
    requires !w.proc.importing && key in Keys(w.disk.outbox)
    ensures Enabled(w, Accept(key)) && Snap(Apply(w, Accept(key))) == Snap(w).After(Deliver(key))
    ensures var v, a := Apply(w, Accept(key)), Acknowledge(key, Done);
            var left := Acknowledged(w.disk.outbox, key);
            && Enabled(v, a) && Snap(Apply(v, a)) == Snap(v).After(PutOutbox(left))
            && SameExceptDisk(w, Apply(v, a)) && Apply(v, a).disk == w.disk.(outbox := left)
  {
    hide Keys, Acknowledged;
  }

  predicate Contains(outbox: seq<OutboxRecord>, pending: seq<OutboxRecord>) {
    Unique(pending) && Keys(pending) <= Keys(outbox)
  }

  lemma ContainsRest(outbox: seq<OutboxRecord>, pending: seq<OutboxRecord>)
    requires pending != [] && Contains(outbox, pending)
    ensures pending[0].key in Keys(outbox) && Contains(outbox, pending[1..])
    ensures Contains(Acknowledged(outbox, pending[0].key), pending[1..])
  {
    assert pending == [pending[0]] + pending[1..];
    KeysOfAppend([pending[0]], pending[1..]);
    assert pending[0] in [pending[0]];
    AcknowledgeRemovesOneKey(outbox, pending[0].key);
    forall key | key in Keys(pending[1..]) ensures key != pending[0].key {
      var r :| r in pending[1..] && r.key == key;
    }
  }

  lemma {:induction false} DrainRuns(w: World, pending: seq<OutboxRecord>, sink: string -> bool)
    returns (acts: seq<Action>)
    requires !w.proc.importing && Contains(w.disk.outbox, pending)
    ensures DiskOnly(acts)
    ensures Mirrors(w, DrainPlan(pending, w.disk.outbox, sink), acts)
    ensures SameExceptDisk(w, Exec(w, acts))
    decreases |pending|
  {
    hide Mirrors, Enabled, Apply, Contains, Keys, Acknowledged;
    if pending == [] {
      acts := [];
      MirrorNothing(w);
    } else {
      var key, rest := pending[0].key, pending[1..];
      ContainsRest(w.disk.outbox, pending);
      if !sink(key) {
        acts := DrainRuns(w, rest, sink);
      } else {
        var left := Acknowledged(w.disk.outbox, key);
        DeliveryStep(w, key);
        var v := Apply(w, Accept(key));
        var u := Apply(v, Acknowledge(key, Done));
        MirrorOne(w, Deliver(key), Accept(key));
        MirrorOne(v, PutOutbox(left), Acknowledge(key, Done));
        MirrorJoin(w, [Deliver(key)], [Accept(key)], [PutOutbox(left)], [Acknowledge(key, Done)]);
        var more := DrainRuns(u, rest, sink);
        MirrorJoin(w, [Deliver(key)] + [PutOutbox(left)], [Accept(key)] + [Acknowledge(key, Done)],
                   DrainPlan(rest, left, sink), more);
        assert [Deliver(key)] + [PutOutbox(left)] == [Deliver(key), PutOutbox(left)];
        acts := [Accept(key)] + [Acknowledge(key, Done)] + more;
      }
    }
  }

  lemma WholeOutboxIsContained(outbox: seq<OutboxRecord>)
    requires Unique(outbox)
    ensures Contains(outbox, outbox)
  {
  }

  // _drain_outbox leaves the journal and the credential alone.
  lemma OutboxDrains(w: World, sink: string -> bool) returns (acts: seq<Action>)
    requires !w.proc.importing && Unique(w.disk.outbox)
    ensures DiskOnly(acts)
    ensures Mirrors(w, DrainPlan(w.disk.outbox, w.disk.outbox, sink), acts)
    ensures var v := Exec(w, acts);
            && SameExceptDisk(w, v) && v.disk.auth == w.disk.auth && v.disk.journal == w.disk.journal
            && Keys(v.disk.outbox) == Keys(w.disk.outbox) - TakenBy(w.disk.outbox, sink) && Unique(v.disk.outbox)
  {
    hide Mirrors, Enabled, Apply, Contains, Keys, Unique, TakenBy, Perform, DrainPlan;
    WholeOutboxIsContained(w.disk.outbox);
    acts := DrainRuns(w, w.disk.outbox, sink);
    MirrorEnds(w, DrainPlan(w.disk.outbox, w.disk.outbox, sink), acts);
    DrainLeaves(Snap(w), w.disk.outbox, sink);
    DrainKeepsUnique(Snap(w), w.disk.outbox, sink);
  }

  lemma {:induction false} DrainKeepsUnique(s: Snapshot, pending: seq<OutboxRecord>, sink: string -> bool)
    requires Unique(s.disk.outbox)
    ensures Unique(Perform(s, DrainPlan(pending, s.disk.outbox, sink)).disk.outbox)
    decreases |pending|
  {
    hide Unique, Acknowledged, Keys;
    if pending != [] {
      var key, rest := pending[0].key, pending[1..];
      if sink(key) {
        var left := Acknowledged(s.disk.outbox, key);
        AcknowledgeKeepsUnique(s.disk.outbox, key);
        PerformTwo(s, Deliver(key), PutOutbox(left));
        PerformAppend(s, [Deliver(key), PutOutbox(left)], DrainPlan(rest, left, sink));
        DrainKeepsUnique(s.After(Deliver(key)).After(PutOutbox(left)), rest, sink);
      } else {
        DrainKeepsUnique(s, rest, sink);
      }
    }
  }

  // --------------------------------------------------------------- terminal records

  // The file is the terminal record the operation works on.
  predicate Holds(d: Disk, state: RotationState, enqueued: bool, attempt: RotationAttempt) {
    && d.journal.HasTerminal() && d.journal.state == state
    && d.journal.enqueued == enqueued && d.journal.attempt == attempt
    && (state.Rotated? ==> d.Current(state.successor))
  }

  lemma EnqueueStep(w: World, state: RotationState)
    requires state.Terminal() && KeyOf(state) !in Keys(w.disk.outbox) && Unique(w.disk.outbox)
    requires (w.disk.journal.HasTerminal() && w.disk.journal.state == state)
             || (w.proc.retained.Some? && w.proc.retained.value.State() == state)
    ensures var a := Enqueue(RecordOf(state), Done); var after := Enqueued(w.disk.outbox, RecordOf(state));
            && Enabled(w, a) && Snap(Apply(w, a)) == Snap(w).After(PutOutbox(after))
            && SameExceptDisk(w, Apply(w, a)) && Apply(w, a).disk == w.disk.(outbox := after)
            && KeyOf(state) in Keys(after) && Unique(after)
  {
    hide EventKey;
    EnqueueKeepsUnique(w.disk.outbox, RecordOf(state));
  }

  // Append the record unless it is waiting already.
  lemma EnqueueRuns(w: World, state: RotationState) returns (acts: seq<Action>)
    requires state.Terminal() && Unique(w.disk.outbox)
    requires (w.disk.journal.HasTerminal() && w.disk.journal.state == state)
             || (w.proc.retained.Some? && w.proc.retained.value.State() == state)
    ensures DiskOnly(acts)
    ensures Mirrors(w, EnqueuePlan(w.disk, state), acts)
    ensures var v := Exec(w, acts);
            && SameExceptDisk(w, v) && v.disk.auth == w.disk.auth && v.disk.journal == w.disk.journal
            && KeyOf(state) in Keys(v.disk.outbox) && Unique(v.disk.outbox)
  {
    hide Mirrors, Enabled, Apply, Keys, EventKey, Unique;
    if KeyOf(state) in Keys(w.disk.outbox) {
      acts := [];
      MirrorNothing(w);
    } else {
      EnqueueStep(w, state);
      acts := [Enqueue(RecordOf(state), Done)];
      MirrorOne(w, PutOutbox(Enqueued(w.disk.outbox, RecordOf(state))), acts[0]);
    }
  }

  // The drain after a record is marked, and the deletion of a delivered ROTATED journal.
  function FinishPlan(s: Snapshot, state: RotationState, sink: string -> bool): Plan
    requires state.Terminal()
  {
    var draining := DrainPlan(s.disk.outbox, s.disk.outbox, sink);
    var drained := Perform(s, draining);
    draining + (if state.Rotated? && KeyOf(state) !in Keys(drained.disk.outbox) then DeletePlan(drained.disk) else [])
  }

  lemma FinishRuns(w: World, state: RotationState, attempt: RotationAttempt, sink: string -> bool)
    returns (acts: seq<Action>)
    requires state.Terminal() && Holds(w.disk, state, true, attempt) && !w.proc.importing && Unique(w.disk.outbox)
    ensures DiskOnly(acts)
    ensures Mirrors(w, FinishPlan(Snap(w), state, sink), acts)
    ensures var v := Exec(w, acts);
            && SameExceptDisk(w, v) && v.disk.auth == w.disk.auth && Unique(v.disk.outbox)
            && (state.Rotated? || Holds(v.disk, state, true, attempt))
  {
    hide Mirrors, Enabled, Apply, Keys, EventKey, Unique, DrainPlan, Perform, TakenBy;
    acts := OutboxDrains(w, sink);
    var draining := DrainPlan(w.disk.outbox, w.disk.outbox, sink);
    MirrorEnds(w, draining, acts);
    var v := Exec(w, acts);
    if state.Rotated? && KeyOf(state) !in Keys(v.disk.outbox) {
      DropStep(v, state, attempt);
      MirrorOne(v, PutJournal(NoJournal), DropProjected(Done));
      MirrorJoin(w, draining, acts, [PutJournal(NoJournal)], [DropProjected(Done)]);
      acts := acts + [DropProjected(Done)];
    } else {
      assert draining + [] == draining;
    }
  }

  lemma DropStep(w: World, state: RotationState, attempt: RotationAttempt)
    requires Holds(w.disk, state, true, attempt) && state.Rotated? && !w.proc.importing
    requires KeyOf(state) !in Keys(w.disk.outbox)
    ensures var a := DropProjected(Done);
            && Enabled(w, a) && Snap(Apply(w, a)) == Snap(w).After(PutJournal(NoJournal))
            && SameExceptDisk(w, Apply(w, a))
            && Apply(w, a).disk == w.disk.(journal := NoJournal)
  {
    hide Keys, EventKey;
  }

  lemma MarkStep(w: World, state: RotationState, attempt: RotationAttempt)
    requires Holds(w.disk, state, false, attempt) && w.disk.journal.Loads() && !w.proc.importing
    requires KeyOf(state) in Keys(w.disk.outbox)
    ensures var a, file := MarkEnqueued(Done), Stored(state, true, attempt);
            && Enabled(w, a) && Snap(Apply(w, a)) == Snap(w).After(PutJournal(file)) && SameExceptDisk(w, Apply(w, a))
            && Apply(w, a).disk == w.disk.(journal := file) && Holds(Apply(w, a).disk, state, true, attempt)
  {
    hide Keys, EventKey, Readable;
  }

  // _record_terminal_outcome
  lemma RecordRuns(w: World, state: RotationState, enqueued: bool, attempt: RotationAttempt, sink: string -> bool)
    returns (acts: seq<Action>)
    requires Holds(w.disk, state, enqueued, attempt) && w.disk.journal.Loads() && !w.proc.importing
             && Unique(w.disk.outbox)
    ensures DiskOnly(acts)
    ensures Mirrors(w, RecordPlan(Snap(w), state, enqueued, attempt, sink), acts)
    ensures var v := Exec(w, acts);
            && SameExceptDisk(w, v) && v.disk.auth == w.disk.auth && Unique(v.disk.outbox)
            && (state.Rotated? || Holds(v.disk, state, true, attempt))
  {
    hide Mirrors, Enabled, Apply, Keys, EventKey, Unique, DrainPlan, Perform, TakenBy, Readable;
    var s := Snap(w);
    if enqueued {
      acts := FinishRuns(w, state, attempt, sink);
      assert Perform(s, []) == s by { PerformNothing(s); }
      assert RecordPlan(s, state, enqueued, attempt, sink) == FinishPlan(s, state, sink) by {
        assert forall p: Plan :: [] + p == p;
      }
    } else {
      var file := PutJournal(Stored(state, true, attempt));
      var first := EnqueueRuns(w, state);
      var enqueuing := EnqueuePlan(w.disk, state);
      MirrorEnds(w, enqueuing, first);
      var v := Exec(w, first);
      MarkStep(v, state, attempt);
      MirrorOne(v, file, MarkEnqueued(Done));
      MirrorJoin(w, enqueuing, first, [file], [MarkEnqueued(Done)]);
      var u := Apply(v, MarkEnqueued(Done));
      var marking, marked := enqueuing + [file], first + [MarkEnqueued(Done)];
      MirrorEnds(w, marking, marked);
      var rest := FinishRuns(u, state, attempt, sink);
      MirrorJoin(w, marking, marked, FinishPlan(Snap(u), state, sink), rest);
      acts := marked + rest;
      RecordPlanSplit(s, state, attempt, sink);
    }
  }

  lemma RecordPlanSplit(s: Snapshot, state: RotationState, attempt: RotationAttempt, sink: string -> bool)
    requires state.Terminal()
    ensures var marking := EnqueuePlan(s.disk, state) + [PutJournal(Stored(state, true, attempt))];
            RecordPlan(s, state, false, attempt, sink) == marking + FinishPlan(Perform(s, marking), state, sink)
  {
    hide Perform, DrainPlan, Keys, EventKey;
  }

  // ----------------------------------------------------------- recovering a journal

  lemma DropStaleStep(w: World)
    requires w.proc.AtRest() && w.disk.auth.Some? && w.disk.journal.Loads() && w.disk.journal.HasContent()
    requires !w.disk.Current(w.disk.journal.state.source)
    requires w.disk.journal.state.Rotated? ==> !w.disk.Current(w.disk.journal.state.successor)
    requires w.disk.journal.state.Terminal() && !w.disk.journal.enqueued ==>
               KeyOf(w.disk.journal.state) in Keys(w.disk.outbox)
    ensures var a := DropStale(Done);
            && Enabled(w, a) && Snap(Apply(w, a)) == Snap(w).After(PutJournal(NoJournal))
            && SameExceptDisk(w, Apply(w, a))
            && Apply(w, a).disk == w.disk.(journal := NoJournal)
  {
    hide Keys, EventKey, Readable;
  }

  // _discard_rotation_state
  lemma DiscardRuns(w: World) returns (acts: seq<Action>)
    requires w.proc.AtRest() && w.disk.auth.Some? && w.disk.journal.Loads() && w.disk.journal.HasContent()
    requires !w.disk.Current(w.disk.journal.state.source) && Unique(w.disk.outbox)
    requires w.disk.journal.state.Rotated? ==> !w.disk.Current(w.disk.journal.state.successor)
    ensures DiskOnly(acts)
    ensures Mirrors(w, DiscardPlan(w.disk, w.disk.journal.state, w.disk.journal.enqueued), acts)
    ensures var v := Exec(w, acts);
            && SameExceptDisk(w, v) && v.disk.auth == w.disk.auth && v.disk.journal == NoJournal
            && Unique(v.disk.outbox)
  {
    hide Mirrors, Enabled, Apply, Keys, EventKey, Unique, Readable;
    var state := w.disk.journal.state;
    var first: seq<Action> := [];
    var enqueuing: Plan := [];
    if state.Terminal() && !w.disk.journal.enqueued {
      first := EnqueueRuns(w, state);
      enqueuing := EnqueuePlan(w.disk, state);
    } else {
      MirrorNothing(w);
    }
    MirrorEnds(w, enqueuing, first);
    var v := Exec(w, first);
    DropStaleStep(v);
    MirrorOne(v, PutJournal(NoJournal), DropStale(Done));
    MirrorJoin(w, enqueuing, first, [PutJournal(NoJournal)], [DropStale(Done)]);
    acts := first + [DropStale(Done)];
  }

  lemma InstallStep(w: World, state: RotationState)
    requires w.disk.journal.HasContent() && w.disk.journal.state == state && state.Rotated? && !w.proc.importing
    requires w.disk.Current(state.source) && w.disk.auth.value.credential.Cookie?
    ensures var a := Install(Done);
            && Enabled(w, a) && Snap(Apply(w, a)) == Snap(w).After(PutAuth(InstalledAuth(state)))
            && Apply(w, a).proc == w.proc && Apply(w, a).disk == w.disk.(auth := Some(InstalledAuth(state)))
  {
    hide Keys, EventKey, Readable;
  }

  // _recover_rotated, and the second half of a successful commit or projection.
  lemma InstallRuns(w: World, state: RotationState, enqueued: bool, attempt: RotationAttempt, sink: string -> bool)
    returns (acts: seq<Action>)
    requires w.disk.journal.HasContent() && state.Rotated? && w.disk.journal.state == state && w.disk.journal.Loads()
    requires w.disk.journal.enqueued == enqueued && w.disk.journal.attempt == attempt
    requires w.disk.Current(state.source) && !w.proc.importing && Unique(w.disk.outbox)
    ensures DiskOnly(acts)
    ensures Mirrors(w, InstallPlan(Snap(w), state, enqueued, attempt, sink), acts)
    ensures Exec(w, acts).proc == w.proc
    ensures w.disk.auth.value.credential.Cookie? ==> Exec(w, acts).disk.Current(state.successor)
  {
    hide Mirrors, Enabled, Apply, Keys, EventKey, Unique, Readable;
    if !w.disk.auth.value.credential.Cookie? {
      acts := [];
      MirrorNothing(w);
    } else {
      InstallStep(w, state);
      var v := Apply(w, Install(Done));
      MirrorOne(w, PutAuth(InstalledAuth(state)), Install(Done));
      var rest := RecordRuns(v, state, enqueued, attempt, sink);
      MirrorJoin(w, [PutAuth(InstalledAuth(state))], [Install(Done)],
                 RecordPlan(Snap(v), state, enqueued, attempt, sink), rest);
      acts := [Install(Done)] + rest;
    }
  }

  lemma MarkUnknownStep(w: World, now: int, reason: string)
    requires Sound(w) && ContentIsCurrent(w.disk) && w.disk.journal.state.Requested? && w.disk.journal.Loads()
    requires !w.proc.importing && AttemptOwner(w.disk.journal.attempt) != Some(w.proc.owner)
    ensures var a, file := MarkUnknown(now, reason, Done),
                           UnknownFile(w.disk.journal.state.source, reason, w.disk.journal.attempt, now);
            && Enabled(w, a) && Snap(Apply(w, a)) == Snap(w).After(PutJournal(file)) && SameExceptDisk(w, Apply(w, a))
            && Apply(w, a).disk == w.disk.(journal := file) && file.Loads()
            && Holds(Apply(w, a).disk, file.state, false, file.attempt)
  {
    hide Origins, ControlOk, Keys, EventKey, WithContinuation;
    var j := w.disk.journal;
    SchedulingIsReadable(j.attempt, AmbiguityReplay, now + RECOVERY_WINDOW, now, j.state.source, reason);
  }

  lemma MarkUnknownRuns(w: World, now: int, reason: string, sink: string -> bool) returns (acts: seq<Action>)
    requires Sound(w) && ContentIsCurrent(w.disk) && w.disk.journal.state.Requested? && w.disk.journal.Loads()
    requires !w.proc.importing && AttemptOwner(w.disk.journal.attempt) != Some(w.proc.owner) && Unique(w.disk.outbox)
    ensures DiskOnly(acts)
    ensures var file := UnknownFile(w.disk.journal.state.source, reason, w.disk.journal.attempt, now);
            && Mirrors(w, MarkUnknownPlan(Snap(w), file, sink), acts)
            && var v := Exec(w, acts);
               SameExceptDisk(w, v) && v.disk.auth == w.disk.auth && Unique(v.disk.outbox)
               && Holds(v.disk, file.state, true, file.attempt)
  {
    hide Mirrors, Enabled, Apply, Keys, EventKey, Unique, Readable, Sound, WithContinuation, RecordPlan;
    var file := UnknownFile(w.disk.journal.state.source, reason, w.disk.journal.attempt, now);
    MarkUnknownStep(w, now, reason);
    var a := MarkUnknown(now, reason, Done);
    var v := Apply(w, a);
    MirrorOne(w, PutJournal(file), a);
    var rest := RecordRuns(v, file.state, false, file.attempt, sink);
    MirrorJoin(w, [PutJournal(file)], [a], RecordPlan(Snap(v), file.state, false, file.attempt, sink), rest);
    acts := [a] + rest;
  }

  lemma DropReservedStep(w: World)
    requires w.proc.AtRest() && ContentIsCurrent(w.disk) && w.disk.journal.state.Reserved?
    ensures var a := DropReserved(Done);
            && Enabled(w, a) && Snap(Apply(w, a)) == Snap(w).After(PutJournal(NoJournal))
            && SameExceptDisk(w, Apply(w, a))
            && Apply(w, a).disk == w.disk.(journal := NoJournal)
  {
    hide Keys, EventKey, Readable;
  }

  // --------------------------------------------------------------------- startup

  lemma JournalStartupRuns(w: World, now: int, alive: RefreshOwner -> bool, sink: string -> bool)
    returns (acts: seq<Action>)
    requires Sound(w) && w.proc.AtRest() && alive(w.proc.owner) && Unique(w.disk.outbox)
    ensures DiskOnly(acts)
    ensures Mirrors(w, StartupJournalPlan(Snap(w), now, alive, sink), acts)
    ensures Exec(w, acts).proc == w.proc
  {
    hide Mirrors, Enabled, Apply, Keys, EventKey, Unique, Readable, Sound, RecordPlan, InstallPlan, MarkUnknownPlan,
         DiscardPlan;
    var d, j := w.disk, w.disk.journal;
    acts := [];
    MirrorNothing(w);
    if d.auth.Some? && j.Loads() && j.HasContent() {
      if j.state.Rotated? && d.Current(j.state.successor) {
        acts := RecordRuns(w, j.state, j.enqueued, j.attempt, sink);
      } else if !d.Current(j.state.source) {
        acts := DiscardRuns(w);
      } else if j.state.Rotated? {
        acts := InstallRuns(w, j.state, j.enqueued, j.attempt, sink);
      } else if j.state.Reserved? {
        acts := [DropReserved(Done)];
        DropReservedStep(w);
        MirrorOne(w, PutJournal(NoJournal), DropReserved(Done));
      } else if j.state.Requested? {
        if !OwnerAlive(j.attempt, alive) {
          acts := MarkUnknownRuns(w, now, EXITED, sink);
        }
      } else {
        acts := RecordRuns(w, j.state, j.enqueued, j.attempt, sink);
      }
    }
  }

  // _recover_startup, cut off anywhere, is a run.
  lemma StartupRuns(w: World, now: int, alive: RefreshOwner -> bool, sink: string -> bool) returns (acts: seq<Action>)
    requires Sound(w) && w.proc.AtRest() && alive(w.proc.owner) && Unique(w.disk.outbox)
    ensures DiskOnly(acts)
    ensures Mirrors(w, StartupPlan(Snap(w), now, alive, sink), acts)
    ensures Exec(w, acts).proc == w.proc
  {
    hide Mirrors, Enabled, Apply, Keys, Unique, Sound, StartupJournalPlan, DrainPlan, Perform, TakenBy;
    if w.disk.auth.None? {
      acts := [];
      MirrorNothing(w);
    } else {
      var draining := DrainPlan(w.disk.outbox, w.disk.outbox, sink);
      var first := OutboxDrains(w, sink);
      MirrorEnds(w, draining, first);
      RunKeepsSound(w, first);
      var v := Exec(w, first);
      var rest := JournalStartupRuns(v, now, alive, sink);
      MirrorJoin(w, draining, first, StartupJournalPlan(Snap(v), now, alive, sink), rest);
      acts := first + rest;
    }
  }

  // --------------------------------------------------------------------- refresh

  // A prepared dispatch ends with the process about to send; everything else leaves it idle.
  predicate EndsPrepared(w: World, v: World, outcome: Outcome) {
    if outcome.Dispatch?
    then v.proc == w.proc.(phase := Sending(outcome.auth.revision, outcome.kind)) && w.disk.auth == Some(outcome.auth)
    else v.proc == w.proc
  }

  lemma BeginStep(w: World, now: int)
    requires w.proc.AtRest() && OwnerIsValid(w.proc.owner) && w.disk.journal == NoJournal
    requires w.disk.auth.Some? && w.disk.auth.value.credential.Cookie?
    ensures var r := w.disk.auth.value.revision; var a := Action.Begin(now, Done);
            var file := Stored(Reserved(r), false, Owned(FirstAttempt(r, now), w.proc.owner));
            && Enabled(w, a) && Snap(Apply(w, a)) == Snap(w).After(PutJournal(file)) && SameExceptDisk(w, Apply(w, a))
            && Apply(w, a).disk == w.disk.(journal := file)
  {
    hide Keys, EventKey, Readable, Owned, FirstAttempt;
  }

  lemma RetryStep(w: World, now: int)
    requires w.proc.AtRest() && OwnerIsValid(w.proc.owner) && ContentIsCurrent(w.disk)
    requires w.disk.journal.state.OutcomeUnknown? && w.disk.journal.enqueued
    requires NextRecoveryAttempt(w.disk.journal.attempt, now).Some?
             && SecondsUntil(w.disk.journal.attempt.nextAttemptAt, now) == 0
    ensures var r, next := w.disk.journal.state.source, NextRecoveryAttempt(w.disk.journal.attempt, now).value;
            var a, file := Retry(now, Done), Stored(Reserved(r), false, Owned(next, w.proc.owner));
            && Enabled(w, a) && Snap(Apply(w, a)) == Snap(w).After(PutJournal(file)) && SameExceptDisk(w, Apply(w, a))
            && Apply(w, a).disk == w.disk.(journal := file)
  {
    hide Keys, EventKey, Readable, Owned, NextRecoveryAttempt;
  }

  lemma RequestStep(w: World, r: Revision, attempt: RotationAttempt)
    requires w.proc.AtRest() && w.disk.Current(r)
    requires w.disk.journal == Stored(Reserved(r), false, Owned(attempt, w.proc.owner))
    ensures var a, file := Request(Done), Stored(Requested(r), false, Owned(attempt, w.proc.owner));
            && Enabled(w, a) && Snap(Apply(w, a)) == Snap(w).After(PutJournal(file))
            && Apply(w, a).proc == w.proc.(phase := Sending(r, attempt.kind))
  {
    hide Keys, EventKey, Readable;
  }

  // _prepare_dispatch
  lemma DispatchRuns(w: World, reserve: Action, attempt: RotationAttempt) returns (acts: seq<Action>)
    requires w.proc.AtRest() && w.disk.auth.Some? && Enabled(w, reserve) && LeavesProcess(reserve)
    requires var r, v := w.disk.auth.value.revision, Apply(w, reserve);
             var file := Stored(Reserved(r), false, Owned(attempt, w.proc.owner));
             && Snap(v) == Snap(w).After(PutJournal(file)) && SameExceptDisk(w, v)
    ensures Prepares(acts)
    ensures var p := DispatchPlan(w.disk.auth.value, attempt, w.proc.owner);
            Mirrors(w, p.plan, acts) && EndsPrepared(w, Exec(w, acts), p.outcome)
  {
    hide Mirrors, Enabled, Apply, Owned;
    var r, v := w.disk.auth.value.revision, Apply(w, reserve);
    var owned := Owned(attempt, w.proc.owner);
    var reserved, requested := PutJournal(Stored(Reserved(r), false, owned)),
      PutJournal(Stored(Requested(r), false, owned));
    MirrorOne(w, reserved, reserve);
    RequestStep(v, r, attempt);
    MirrorOne(v, requested, Request(Done));
    MirrorJoin(w, [reserved], [reserve], [requested], [Request(Done)]);
    assert [reserved] + [requested] == [reserved, requested];
    acts := [reserve] + [Request(Done)];
  }

  lemma FirstDispatchRuns(w: World, expected: Option<Revision>, now: int, sink: string -> bool)
    returns (acts: seq<Action>)
    requires w.proc.AtRest() && OwnerIsValid(w.proc.owner) && w.disk.journal == NoJournal && Unique(w.disk.outbox)
    requires w.disk.auth.Some? && w.disk.auth.value.credential.Cookie?
    ensures Prepares(acts)
    ensures var p := FirstDispatchPlan(Snap(w), w.disk.auth.value, expected, now, w.proc.owner, sink);
            Mirrors(w, p.plan, acts) && EndsPrepared(w, Exec(w, acts), p.outcome)
  {
    hide Mirrors, Enabled, Apply, Keys, Unique, DrainPlan, Perform, TakenBy, Owned, FirstAttempt;
    var auth := w.disk.auth.value;
    var draining := DrainPlan(w.disk.outbox, w.disk.outbox, sink);
    acts := OutboxDrains(w, sink);
    MirrorEnds(w, draining, acts);
    if expected.Some? && expected.value != auth.revision {
      assert draining + [] == draining;
    } else {
      var v := Exec(w, acts);
      BeginStep(v, now);
      var attempt := FirstAttempt(auth.revision, now);
      assert attempt.kind == Normal by { FirstKind(auth.revision, now); }
      var rest := DispatchRuns(v, Action.Begin(now, Done), attempt);
      MirrorJoin(w, draining, acts, DispatchPlan(auth, attempt, w.proc.owner).plan, rest);
      PreparesAfter(acts, rest);
      acts := acts + rest;
    }
  }

  lemma FirstKind(r: Revision, now: int)
    ensures FirstAttempt(r, now).kind == Normal
  {
  }

  lemma StopStep(w: World, now: int)
    requires w.proc.AtRest() && ContentIsCurrent(w.disk) && w.disk.journal.state.OutcomeUnknown?
             && w.disk.journal.enqueued
    requires NextRecoveryAttempt(w.disk.journal.attempt, now).None?
    ensures var a, file := Stop(now, Done), Stored(w.disk.journal.state, false, StopRecord(w.disk.journal.attempt));
            && Enabled(w, a) && Snap(Apply(w, a)) == Snap(w).After(PutJournal(file)) && SameExceptDisk(w, Apply(w, a))
  {
    hide Keys, EventKey, Readable, StopRecord, NextRecoveryAttempt;
  }

  // _recover_unknown
  lemma RecoverUnknownRuns(w: World, state: RotationState, attempt: RotationAttempt, now: int)
    returns (acts: seq<Action>)
    requires w.proc.AtRest() && OwnerIsValid(w.proc.owner) && state.OutcomeUnknown?
             && Holds(w.disk, state, true, attempt)
    requires w.disk.Current(state.source)
    ensures Prepares(acts)
    ensures var p := RecoverUnknownPlan(w.disk.auth.value, state, attempt, now, w.proc.owner);
            Mirrors(w, p.plan, acts) && EndsPrepared(w, Exec(w, acts), p.outcome)
  {
    hide Mirrors, Enabled, Apply, Keys, Owned, StopRecord;
    var next := NextRecoveryAttempt(attempt, now);
    if next.None? {
      StopStep(w, now);
      acts := [Stop(now, Done)];
      MirrorOne(w, PutJournal(Stored(state, false, StopRecord(attempt))), acts[0]);
    } else if SecondsUntil(next.value.nextAttemptAt, now) > 0
        || Step(state, AuthorizeRecoveryDispatch(AuthorizationOf(next.value, attempt.continuation.value.lane,
                                                                 now))).None? {
      acts := [];
      MirrorNothing(w);
    } else {
      RetryStep(w, now);
      acts := DispatchRuns(w, Retry(now, Done), next.value);
    }
  }

  lemma RecoverMatchingRuns(w: World, expected: Option<Revision>, now: int, alive: RefreshOwner -> bool,
                            sink: string -> bool)
    returns (acts: seq<Action>)
    requires Sound(w) && w.proc.AtRest() && OwnerIsValid(w.proc.owner) && alive(w.proc.owner) && Unique(w.disk.outbox)
    requires w.disk.journal.Loads() && ContentIsCurrent(w.disk) && w.disk.auth.value.credential.Cookie?
    ensures Prepares(acts)
    ensures var j := w.disk.journal;
            var p := RecoverMatchingPlan(Snap(w), w.disk.auth.value, j.state, j.enqueued, j.attempt, expected, now,
                                         w.proc.owner, alive, sink);
            Mirrors(w, p.plan, acts) && EndsPrepared(w, Exec(w, acts), p.outcome)
  {
    hide Mirrors, Enabled, Apply, Keys, EventKey, Unique, Readable, Sound, RecordPlan, InstallPlan, MarkUnknownPlan,
         FirstDispatchPlan, RecoverUnknownPlan, WithContinuation, Perform;
    var j, auth := w.disk.journal, w.disk.auth.value;
    match j.state {
      case Rotated(_, _, _) => acts := InstallRuns(w, j.state, j.enqueued, j.attempt, sink);
      case Reserved(_) =>
        DropReservedStep(w);
        MirrorOne(w, PutJournal(NoJournal), DropReserved(Done));
        MirrorEnds(w, [PutJournal(NoJournal)], [DropReserved(Done)]);
        var v := Apply(w, DropReserved(Done));
        var rest := FirstDispatchRuns(v, expected, now, sink);
        MirrorJoin(w, [PutJournal(NoJournal)], [DropReserved(Done)],
                   FirstDispatchPlan(Snap(v), auth, expected, now, w.proc.owner, sink).plan, rest);
        PreparesAfter([DropReserved(Done)], rest);
        acts := [DropReserved(Done)] + rest;
      case Requested(source) =>
        if OwnerAlive(j.attempt, alive) {
          acts := [];
          MirrorNothing(w);
        } else {
          var file := UnknownFile(source, INTERRUPTED, j.attempt, now);
          var first := MarkUnknownRuns(w, now, INTERRUPTED, sink);
          MirrorEnds(w, MarkUnknownPlan(Snap(w), file, sink), first);
          acts := ThenRecoverUnknown(w, MarkUnknownPlan(Snap(w), file, sink), first, file.state, file.attempt, now);
        }
      case OutcomeUnknown(_, _) =>
        var first := RecordRuns(w, j.state, j.enqueued, j.attempt, sink);
        MirrorEnds(w, RecordPlan(Snap(w), j.state, j.enqueued, j.attempt, sink), first);
        acts := ThenRecoverUnknown(w, RecordPlan(Snap(w), j.state, j.enqueued, j.attempt, sink), first, j.state,
                                   j.attempt, now);
      case Rejected(_, _) => acts := RecordRuns(w, j.state, j.enqueued, j.attempt, sink);
    }
  }

  lemma ThenRecoverUnknown(w: World, plan: Plan, first: seq<Action>, state: RotationState,
                           attempt: RotationAttempt, now: int)
    returns (acts: seq<Action>)
    requires Mirrors(w, plan, first) && DiskOnly(first) && w.proc.AtRest() && OwnerIsValid(w.proc.owner)
    requires state.OutcomeUnknown? && w.disk.Current(state.source)
    requires var v := Exec(w, first);
             SameExceptDisk(w, v) && v.disk.auth == w.disk.auth && Holds(v.disk, state, true, attempt)
    ensures Prepares(acts)
    ensures var p := RecoverUnknownPlan(w.disk.auth.value, state, attempt, now, w.proc.owner).Following(plan);
            Mirrors(w, p.plan, acts) && EndsPrepared(w, Exec(w, acts), p.outcome)
  {
    hide Mirrors, Enabled, Apply, RecoverUnknownPlan;
    MirrorEnds(w, plan, first);
    var v := Exec(w, first);
    var rest := RecoverUnknownRuns(v, state, attempt, now);
    MirrorJoin(w, plan, first, RecoverUnknownPlan(w.disk.auth.value, state, attempt, now, w.proc.owner).plan, rest);
    PreparesAfter(first, rest);
    acts := first + rest;
  }

  // _prepare, cut off anywhere, is a run; and it ends about to send exactly when it
  // returns a dispatch.
  lemma PrepareRuns(w: World, expected: Option<Revision>, now: int, alive: RefreshOwner -> bool, sink: string -> bool,
                    readable: bool) returns (acts: seq<Action>)
    requires Sound(w) && w.proc.AtRest() && OwnerIsValid(w.proc.owner) && alive(w.proc.owner) && Unique(w.disk.outbox)
    ensures Prepares(acts)
    ensures var p := PreparePlan(Snap(w), expected, now, w.proc.owner, alive, sink, readable);
            Mirrors(w, p.plan, acts) && EndsPrepared(w, Exec(w, acts), p.outcome)
  {
    hide Mirrors, Enabled, Apply, Keys, EventKey, Unique, Readable, Sound, RecordPlan, DiscardPlan, FirstDispatchPlan,
         RecoverMatchingPlan, Perform;
    var d, j := w.disk, w.disk.journal;
    acts := [];
    MirrorNothing(w);
    if d.auth.Some? && d.auth.value.credential.Cookie? && readable {
      if j == NoJournal {
        acts := FirstDispatchRuns(w, expected, now, sink);
      } else if j.Loads() && j.HasContent() {
        if j.state.Rotated? && d.Current(j.state.successor) {
          acts := RecordRuns(w, j.state, j.enqueued, j.attempt, sink);
        } else if !d.Current(j.state.source) {
          var discarding := DiscardPlan(d, j.state, j.enqueued);
          var first := DiscardRuns(w);
          MirrorEnds(w, discarding, first);
          var v := Exec(w, first);
          var rest := FirstDispatchRuns(v, expected, now, sink);
          MirrorJoin(w, discarding, first,
                     FirstDispatchPlan(Snap(v), d.auth.value, expected, now, w.proc.owner, sink).plan, rest);
          PreparesAfter(first, rest);
          acts := first + rest;
        } else {
          acts := RecoverMatchingRuns(w, expected, now, alive, sink);
        }
      }
    }
  }

  // ------------------------------------------------------------------ after the answer

  function AfterCommit(p: Process): Process
    requires p.phase.Answered?
  {
    var answer := p.phase.answer;
    p.(phase := if answer.Succeeded? then Installing(Successor(p.phase.source, answer.cookie, answer.successor))
       else Idle)
  }

  lemma CommitStep(w: World, now: int, reason: string, responseClass: Option<string>, readable: bool)
    requires Sound(w) && !w.proc.importing && w.proc.phase.Answered? && w.disk.Current(w.proc.phase.source)
    ensures var a := Commit(now, reason, responseClass, readable, Done);
            var file := CommitFile(w.disk.journal, w.proc.phase.source, w.proc.phase.answer, now, reason,
                                   responseClass, readable);
            && Enabled(w, a) && Snap(Apply(w, a)) == Snap(w).After(PutJournal(file))
            && Apply(w, a).proc == AfterCommit(w.proc) && Apply(w, a).disk == w.disk.(journal := file)
            && file.Loads()
  {
    StoppedRevisions.CommitWritesReadable(w, Commit(now, reason, responseClass, readable, Done));
    hide Keys, EventKey, Readable, Sound, CommitFile, Spending.Forgotten;
  }

  // _commit_success, _commit_rejected and _commit_unknown. A successful commit keeps its
  // successor in memory until it is recorded, and may then finish.
  lemma CommitRuns(w: World, now: int, reason: string, responseClass: Option<string>, readable: bool,
                   sink: string -> bool)
    returns (acts: seq<Action>)
    requires Sound(w) && !w.proc.importing && w.proc.phase.Answered? && Unique(w.disk.outbox)
    ensures acts == [] || (acts[0].Commit? && DiskOnly(acts[1..]))
    ensures var source, answer := w.proc.phase.source, w.proc.phase.answer;
            && Mirrors(w, CommitPlan(Snap(w), source, answer, now, reason, responseClass, readable, sink).plan, acts)
            && (if !w.disk.Current(source) then Enabled(Exec(w, acts), Abandon(false))
                else Exec(w, acts).proc == AfterCommit(w.proc))
            && (w.disk.Current(source) && answer.Succeeded? && w.disk.auth.value.credential.Cookie? ==>
                  Enabled(Exec(w, acts), Finish))
  {
    hide Mirrors, Apply, Keys, EventKey, Unique, Readable, RecordPlan, CommitFile, LineageOk;
    var source, answer := w.proc.phase.source, w.proc.phase.answer;
    if !w.disk.Current(source) {
      acts := [];
      MirrorNothing(w);
    } else {
      var a := Commit(now, reason, responseClass, readable, Done);
      var file := CommitFile(w.disk.journal, source, answer, now, reason, responseClass, readable);
      CommitFileShape(w.disk.journal, source, answer, now, reason, responseClass, readable);
      CommitStep(w, now, reason, responseClass, readable);
      MirrorOne(w, PutJournal(file), a);
      var v := Apply(w, a);
      acts := [a];
      if answer.Succeeded? {
        SuccessorDiffers(w, answer.successor);
        if w.disk.auth.value.credential.Cookie? {
          var rest := InstallRuns(v, file.state, false, file.attempt, sink);
          MirrorJoin(w, [PutJournal(file)], [a], InstallPlan(Snap(v), file.state, false, file.attempt, sink), rest);
          acts := [a] + rest;
        } else {
          assert [PutJournal(file)] + [] == [PutJournal(file)];
        }
      } else {
        var rest := RecordRuns(v, file.state, false, file.attempt, sink);
        MirrorJoin(w, [PutJournal(file)], [a], RecordPlan(Snap(v), file.state, false, file.attempt, sink), rest);
        acts := [a] + rest;
      }
    }
  }

  lemma SuccessorDiffers(w: World, t: Revision)
    requires Origins(w) && w.proc.phase.Answered? && w.proc.phase.answer.Succeeded?
             && t == w.proc.phase.answer.successor
    ensures t != w.proc.phase.source
  {
    assert w.line.minted[t].source == w.proc.phase.source;
  }

  // ------------------------------------------------------------ the retained successor

  lemma RerecordStep(w: World, readable: bool)
    requires !w.proc.importing && w.proc.phase.Idle? && w.proc.retained.Some?
             && w.disk.Current(w.proc.retained.value.revision)
    requires KeyOf(w.proc.retained.value.State()) in Keys(w.disk.outbox)
    ensures var a, file := Rerecord(readable, Done),
            ProjectionFile(w.disk.journal, w.proc.retained.value, true, readable);
            && Enabled(w, a) && Snap(Apply(w, a)) == Snap(w).After(PutJournal(file)) && SameExceptDisk(w, Apply(w, a))
            && Apply(w, a).disk == w.disk.(journal := file)
  {
    hide Keys, EventKey, Readable, ProjectionFile;
  }

  lemma ProjectStep(w: World, readable: bool)
    requires Sound(w) && !w.proc.importing && w.proc.phase.Idle? && w.proc.retained.Some?
    requires w.disk.Current(w.proc.retained.value.source)
    ensures var a, file := Project(readable, Done),
            ProjectionFile(w.disk.journal, w.proc.retained.value, false, readable);
            && Enabled(w, a) && Snap(Apply(w, a)) == Snap(w).After(PutJournal(file)) && SameExceptDisk(w, Apply(w, a))
            && Apply(w, a).disk == w.disk.(journal := file) && file.Loads()
  {
    StoppedRevisions.ReservingWritesReadable(w, Project(readable, Done));
    hide Keys, EventKey, Readable, ProjectionFile, Sound, Spending.Forgotten;
  }

  // The successor is already installed: record it again.
  lemma RerecordRuns(w: World, kept: Successor, readable: bool, sink: string -> bool) returns (acts: seq<Action>)
    requires !w.proc.importing && w.proc.phase.Idle? && w.proc.retained == Some(kept) && Unique(w.disk.outbox)
    requires w.disk.Current(kept.revision)
    ensures DiskOnly(acts)
    ensures Mirrors(w, ProjectPlan(Snap(w), kept, readable, sink).plan, acts)
    ensures Exec(w, acts).proc == w.proc && Exec(w, acts).disk.auth == w.disk.auth
  {
    hide Mirrors, Enabled, Apply, Keys, EventKey, Unique, Readable, DrainPlan, AttemptFor, Perform;
    var attempt := WithoutOwner(AttemptFor(w.disk.journal, kept.source, readable));
    var file := PutJournal(Stored(kept.State(), true, attempt));
    var enqueuing := EnqueuePlan(w.disk, kept.State());
    var first := EnqueueRuns(w, kept.State());
    MirrorEnds(w, enqueuing, first);
    var v := Exec(w, first);
    RerecordStep(v, readable);
    var a := Rerecord(readable, Done);
    MirrorOne(v, file, a);
    MirrorJoin(w, enqueuing, first, [file], [a]);
    MirrorEnds(w, enqueuing + [file], first + [a]);
    var u := Apply(v, a);
    var rest := FinishRuns(u, kept.State(), attempt, sink);
    MirrorJoin(w, enqueuing + [file], first + [a], FinishPlan(Snap(u), kept.State(), sink), rest);
    acts := first + [a] + rest;
    RecordPlanSplit(Snap(w), kept.State(), attempt, sink);
  }

  // Its source is still current: write the journal, then install.
  lemma ProjectSourceRuns(w: World, kept: Successor, readable: bool, sink: string -> bool) returns (acts: seq<Action>)
    requires Sound(w) && !w.proc.importing && w.proc.phase.Idle? && w.proc.retained == Some(kept)
             && Unique(w.disk.outbox)
    requires w.disk.Current(kept.source) && !w.disk.Current(kept.revision)
    ensures DiskOnly(acts)
    ensures Mirrors(w, ProjectPlan(Snap(w), kept, readable, sink).plan, acts)
    ensures Exec(w, acts).proc == w.proc
    ensures w.disk.auth.value.credential.Cookie? ==> Exec(w, acts).disk.Current(kept.revision)
  {
    hide Mirrors, Enabled, Apply, Keys, EventKey, Unique, Readable, AttemptFor, Perform, Sound, RecordPlan;
    var attempt := WithoutOwner(AttemptFor(w.disk.journal, kept.source, readable));
    var write := PutJournal(Stored(kept.State(), false, attempt));
    var a := Project(readable, Done);
    ProjectStep(w, readable);
    MirrorOne(w, write, a);
    var v := Apply(w, a);
    if w.disk.auth.value.credential.Cookie? {
      var rest := InstallRuns(v, kept.State(), false, attempt, sink);
      MirrorJoin(w, [write], [a], InstallPlan(Snap(v), kept.State(), false, attempt, sink), rest);
      acts := [a] + rest;
    } else {
      assert [write] + [] == [write];
      acts := [a];
    }
  }

  // project_retained_successor; once it answers, the loop may clear its buffer.
  lemma ProjectRuns(w: World, readable: bool, sink: string -> bool) returns (acts: seq<Action>)
    requires Sound(w) && !w.proc.importing && w.proc.phase.Idle? && w.proc.retained.Some? && Unique(w.disk.outbox)
    ensures DiskOnly(acts)
    ensures var kept := w.proc.retained.value;
            && Mirrors(w, ProjectPlan(Snap(w), kept, readable, sink).plan, acts)
            && Exec(w, acts).proc == w.proc
            && (w.disk.auth.Some? && w.disk.auth.value.credential.Cookie? ==> Enabled(Exec(w, acts), Forget(false)))
  {
    var kept := w.proc.retained.value;
    KeptDiffers(w);
    hide Mirrors, Apply, Unique, Sound, ProjectPlan;
    if w.disk.Current(kept.revision) {
      acts := RerecordRuns(w, kept, readable, sink);
    } else if w.disk.Current(kept.source) {
      acts := ProjectSourceRuns(w, kept, readable, sink);
    } else {
      acts := [];
      MirrorNothing(w);
      SupersededProjectsNothing(Snap(w), kept, readable, sink);
    }
  }

  lemma SupersededProjectsNothing(s: Snapshot, kept: Successor, readable: bool, sink: string -> bool)
    requires !s.disk.Current(kept.revision) && !s.disk.Current(kept.source)
    ensures ProjectPlan(s, kept, readable, sink).plan == []
  {
  }

  lemma KeptDiffers(w: World)
    requires Origins(w) && w.proc.retained.Some?
    ensures w.proc.retained.value.source != w.proc.retained.value.revision
  {
    assert w.line.minted[w.proc.retained.value.revision] == w.proc.retained.value;
  }

  // --------------------------------------------------------------------- imports

  lemma ImportStep(w: World, imported: StoredAuth)
    requires !w.proc.importing && imported.revision !in w.line.used && imported.revision != ""
    ensures var a := Import(imported, Done);
            && Enabled(w, a) && Snap(Apply(w, a)) == Snap(w).After(PutAuth(imported))
            && Apply(w, a).proc == w.proc.(importing := true) && Apply(w, a).disk == w.disk.(auth := Some(imported))
  {
    hide Keys;
  }

  lemma SupersedeStep(w: World, seen: bool)
    requires w.proc.importing
    requires seen && w.disk.journal.Loads() && w.disk.journal.state.Terminal() && !w.disk.journal.enqueued ==>
               KeyOf(w.disk.journal.state) in Keys(w.disk.outbox)
    ensures var a := Supersede(seen, Done);
            && Enabled(w, a) && Snap(Apply(w, a)) == Snap(w).After(PutJournal(NoJournal))
            && Apply(w, a).proc == w.proc.(importing := false)
  {
    hide Keys, EventKey, Readable;
  }

  // The steps of one import, which uses the lock and nothing else of the process.
  predicate ImportSteps(acts: seq<Action>, imported: StoredAuth) {
    forall a <- acts :: (a.Import? && a.imported == imported) || a.Supersede? || LeavesProcess(a)
  }

  // import_credential, whatever the refresher is doing between its own lock sections.
  lemma ImportRuns(w: World, imported: StoredAuth, readable: bool) returns (acts: seq<Action>)
    requires !w.proc.importing && imported.revision !in w.line.used && imported.revision != "" && Unique(w.disk.outbox)
    ensures ImportSteps(acts, imported)
    ensures Mirrors(w, ImportPlan(w.disk, imported, readable), acts)
    ensures Exec(w, acts).disk.Current(imported.revision)
    ensures if w.disk.journal == NoJournal then Enabled(Exec(w, acts), ImportEnds) else Exec(w, acts).proc == w.proc
  {
    hide Mirrors, Apply, Keys, EventKey, Unique, Readable, Perform;
    var j := w.disk.journal;
    ImportStep(w, imported);
    var a := Import(imported, Done);
    MirrorOne(w, PutAuth(imported), a);
    MirrorEnds(w, [PutAuth(imported)], [a]);
    var v := Apply(w, a);
    var enqueuing: Plan := [];
    var first: seq<Action> := [];
    if readable && j.Loads() && j.state.Terminal() && !j.enqueued {
      enqueuing := EnqueuePlan(v.disk, j.state);
      first := EnqueueRuns(v, j.state);
    } else {
      MirrorNothing(v);
    }
    MirrorEnds(v, enqueuing, first);
    MirrorJoin(w, [PutAuth(imported)], [a], enqueuing, first);
    acts := [a] + first;
    var u := Exec(v, first);
    assert ImportPlan(w.disk, imported, readable) == [PutAuth(imported)] + enqueuing + DeletePlan(w.disk);
    if j == NoJournal {
      assert [PutAuth(imported)] + enqueuing + [] == [PutAuth(imported)] + enqueuing;
    } else {
      SupersedeStep(u, readable);
      var b := Supersede(readable, Done);
      MirrorOne(u, PutJournal(NoJournal), b);
      MirrorJoin(w, [PutAuth(imported)] + enqueuing, [a] + first, [PutJournal(NoJournal)], [b]);
      MirrorEnds(w, [PutAuth(imported)] + enqueuing, [a] + first);
      acts := [a] + first + [b];
    }
  }

  // ------------------------------------------------------------ no programmer errors

  lemma RecoverUnknownIsAuthorized(auth: StoredAuth, state: RotationState, attempt: RotationAttempt, now: int,
                                   owner: RefreshOwner)
    requires state.OutcomeUnknown? && AttemptIsValid(attempt) && (attempt.IsScheduled() ==> Funded(attempt))
    ensures RecoverUnknownPlan(auth, state, attempt, now, owner).outcome != InvalidTransition
  {
    var next := NextRecoveryAttempt(attempt, now);
    if next.Some? && SecondsUntil(next.value.nextAttemptAt, now) == 0 {
      BudgetAndGuardAgree(attempt, now);
    }
  }

  // Nothing reachable makes _prepare raise the state machine's programmer error.
  lemma PrepareNeverRaisesInvalidTransition(w: World, expected: Option<Revision>, now: int, alive: RefreshOwner -> bool,
                                            sink: string -> bool, readable: bool)
    requires Sound(w)
    ensures PreparePlan(Snap(w), expected, now, w.proc.owner, alive, sink, readable).outcome != InvalidTransition
  {
    hide Origins, ControlOk, FirstDispatchPlan, RecordPlan, DiscardPlan, InstallPlan, MarkUnknownPlan, Perform,
         DeletePlan, RecoverUnknownPlan, WithContinuation, Keys, EventKey;
    var d, j := w.disk, w.disk.journal;
    forall s: Snapshot, auth
      ensures FirstDispatchPlan(s, auth, expected, now, w.proc.owner, sink).outcome != InvalidTransition
    {
      FirstDispatchIsTransition(s, auth, expected, now, w.proc.owner, sink);
    }
    if d.auth.Some? && j.Loads() && ContentIsCurrent(d) {
      if j.state.Requested? {
        var file := UnknownFile(j.state.source, INTERRUPTED, j.attempt, now);
        SchedulingKeepsTheBudget(j.attempt, AmbiguityReplay, now + RECOVERY_WINDOW, now);
        SchedulingIsReadable(j.attempt, AmbiguityReplay, now + RECOVERY_WINDOW, now, j.state.source, INTERRUPTED);
        RecoverUnknownIsAuthorized(d.auth.value, file.state, file.attempt, now, w.proc.owner);
      } else if j.state.OutcomeUnknown? {
        if j.attempt.IsScheduled() {
          RecoverUnknownIsAuthorized(d.auth.value, j.state, j.attempt, now, w.proc.owner);
        } else {
          StoppedIsNotDispatched(d.auth.value, j.state, j.attempt, now, w.proc.owner);
        }
      }
    }
  }

  lemma FirstDispatchIsTransition(s: Snapshot, auth: StoredAuth, expected: Option<Revision>, now: int,
                                  owner: RefreshOwner,
                                  sink: string -> bool)
    ensures FirstDispatchPlan(s, auth, expected, now, owner, sink).outcome != InvalidTransition
  {
  }

  lemma StoppedIsNotDispatched(auth: StoredAuth, state: RotationState, attempt: RotationAttempt, now: int,
                               owner: RefreshOwner)
    requires state.OutcomeUnknown? && !attempt.IsScheduled()
    ensures RecoverUnknownPlan(auth, state, attempt, now, owner).outcome == WaitForRevision(state.source)
  {
  }

  // ------------------------------------------------------------------ failing writes

  predicate Writes(a: Action) {
    !a.Send? && !a.Answer? && !a.Abandon? && !a.Retain? && !a.Finish? && !a.Forget? && !a.Accept? && !a.ImportEnds?
      && !a.Unwind?
    && !a.Crash?
  }

  // The same write, ending in an exception with the old or the new content in place.
  function Failing(a: Action, landed: bool): Action
    requires Writes(a)
  {
    a.(o := Failed(landed))
  }

  // A write that fails is a step as well; it leaves the process where it was, except that
  // an answered exchange is over.
  lemma FailedWriteIsStep(w: World, a: Action, landed: bool)
    requires Enabled(w, a) && Writes(a) && a.o.Done?
    ensures Enabled(w, Failing(a, landed))
    ensures Snap(Apply(w, Failing(a, landed))) == if landed then Snap(Apply(w, a)) else Snap(w)
    ensures Apply(w, Failing(a, landed)).proc == if a.Commit? || a.Supersede? then Apply(w, a).proc else w.proc
  {
    hide KeysInJournal, CommitFile, ProjectionFile, Readable, EventKey, Owned, NextRecoveryAttempt, FirstAttempt, Keys,
         Spending.Reopened, Spending.Granted, Spending.Sent, Spending.Forgotten, Spending.Dropped, Enqueued,
         Acknowledged, StopRecord, WithContinuation, KeyOf, RecordOf;
  }

  lemma DiskStepLeavesProcess(w: World, a: Action)
    requires Enabled(w, a) && LeavesProcess(a)
    ensures Apply(w, a).proc == w.proc
  {
    hide KeysInJournal, Readable, EventKey, Owned, NextRecoveryAttempt, FirstAttempt, Keys, Enqueued, Acknowledged,
         StopRecord, WithContinuation, KeyOf, RecordOf, ProjectionFile;
  }

  lemma {:induction false} DiskOnlyRun(w: World, acts: seq<Action>)
    requires Legal(w, acts) && DiskOnly(acts)
    ensures Exec(w, acts).proc == w.proc
    decreases |acts|
  {
    hide Enabled, Apply, LeavesProcess;
    if acts != [] {
      var n := |acts| - 1;
      DiskOnlyRun(w, acts[..n]);
      assert acts[n] in acts;
      DiskStepLeavesProcess(Exec(w, acts[..n]), acts[n]);
    }
  }

  // --------------------------------------------------------------- what carries over

  // An operation that is a run keeps every guarantee wherever it is cut off: the
  // invariants, the delivery of outcomes, the dispatch budget and, unless it imports,
  // every successor.
  lemma CutOffKeepsGuarantees(w: World, plan: Plan, acts: seq<Action>, k: nat) returns (v: World)
    requires Sound(w) && Delivers(w) && DispatchBudget.Budgeted(w) && Mirrors(w, plan, acts) && k <= |plan|
    requires LosesNoOutcome(w, acts)
    ensures Legal(w, acts[..k]) && v == Exec(w, acts[..k]) && Snap(v) == Perform(Snap(w), plan[..k])
    ensures Sound(v) && Delivers(v) && DispatchBudget.Budgeted(v)
    ensures forall s :: Kept(w, s) && NeverLoses(w, acts, s) ==> Kept(v, s)
  {
    hide Sound, Delivers, DispatchBudget.Budgeted, Enabled, Apply, Perform, Kept;
    assert Follows(w, plan, acts, k);
    PrefixIsLegal(w, acts, k);
    v := Exec(w, acts[..k]);
    LosslessPrefix(w, acts, k);
    RunDelivers(w, acts[..k]);
    DispatchBudget.RunKeepsBudget(w, acts[..k]);
    forall s | Kept(w, s) && NeverLoses(w, acts, s) ensures Kept(v, s) {
      NeverLosesPrefix(w, acts, s, k);
      RunKeepsSuccessor(w, acts[..k], s);
    }
  }

  // And so does an operation whose write fails.
  lemma FailedWriteKeepsGuarantees(w: World, plan: Plan, acts: seq<Action>, k: nat, landed: bool) returns (v: World)
    requires Sound(w) && Delivers(w) && DispatchBudget.Budgeted(w) && Mirrors(w, plan, acts) && k < |plan|
    requires Writes(acts[k]) && acts[k].o.Done? && LosesNoOutcome(w, acts)
    ensures var done := acts[..k] + [Failing(acts[k], landed)]; Legal(w, done) && v == Exec(w, done)
    ensures Snap(v) == Perform(Snap(w), plan[..k + (if landed then 1 else 0)])
    ensures Sound(v) && Delivers(v) && DispatchBudget.Budgeted(v)
    ensures forall s :: Kept(w, s) && NeverLoses(w, acts, s) ==> Kept(v, s)
  {
    var a := Failing(acts[k], landed);
    hide Sound, Delivers, DispatchBudget.Budgeted, Enabled, Apply, Perform, Kept, Failing, Writes;
    var u := CutOffKeepsGuarantees(w, plan, acts, k);
    StepIsNext(w, plan, acts, k);
    FailedWriteIsStep(u, acts[k], landed);
    RunExtends(w, acts[..k], a);
    v := Apply(u, a);
    StepKeepsSound(u, a);
    LosslessPrefix(w, acts, k + 1);
    assert acts[..k + 1][..k] == acts[..k];
    FailingLosesNoMore(u, acts[k], landed);
    StepDelivers(u, a);
    DispatchBudget.StepKeepsBudget(u, a);
    forall s | Kept(w, s) && NeverLoses(w, acts, s) ensures Kept(v, s) {
      NeverLosesPrefix(w, acts, s, k + 1);
      StepKeepsSuccessor(u, a, s);
    }
  }

  lemma FailingLosesNoMore(w: World, a: Action, landed: bool)
    requires Enabled(w, a) && Writes(a) && a.o.Done? && Enabled(w, Failing(a, landed))
    ensures LosesOutcome(w, Failing(a, landed)) ==> LosesOutcome(w, a)
    ensures forall s :: LosesSuccessor(w, Failing(a, landed), s) ==> LosesSuccessor(w, a, s)
  {
    hide Enabled, Waiting, Delivered, Arrived, Durable;
  }

  lemma {:induction false} LosslessPrefix(w: World, acts: seq<Action>, k: nat)
    requires Legal(w, acts) && LosesNoOutcome(w, acts) && k <= |acts|
    ensures Legal(w, acts[..k]) && LosesNoOutcome(w, acts[..k])
    decreases |acts|
  {
    hide Enabled, Apply, LosesOutcome;
    PrefixIsLegal(w, acts, k);
    if k == |acts| {
      assert acts[..k] == acts;
    } else {
      LosslessPrefix(w, acts[..|acts| - 1], k);
      assert acts[..|acts| - 1][..k] == acts[..k];
    }
  }

  lemma {:induction false} NeverLosesPrefix(w: World, acts: seq<Action>, s: Successor, k: nat)
    requires Legal(w, acts) && NeverLoses(w, acts, s) && k <= |acts|
    ensures Legal(w, acts[..k]) && NeverLoses(w, acts[..k], s)
    decreases |acts|
  {
    hide Enabled, Apply, LosesSuccessor;
    PrefixIsLegal(w, acts, k);
    if k == |acts| {
      assert acts[..k] == acts;
    } else {
      NeverLosesPrefix(w, acts[..|acts| - 1], s, k);
      assert acts[..|acts| - 1][..k] == acts[..k];
    }
  }

  lemma StepIsNext(w: World, plan: Plan, acts: seq<Action>, k: nat)
    requires Mirrors(w, plan, acts) && k < |plan|
    ensures Legal(w, acts[..k]) && Enabled(Exec(w, acts[..k]), acts[k])
    ensures Snap(Apply(Exec(w, acts[..k]), acts[k])) == Perform(Snap(w), plan[..k + 1])
  {
    hide Enabled, Apply, Perform;
    PrefixIsLegal(w, acts, k);
    PrefixIsLegal(w, acts, k + 1);
    assert acts[..k + 1][..k] == acts[..k];
    assert Follows(w, plan, acts, k + 1);
  }

  // A preparation cut off by a failing write leaves the process idle.
  lemma FailedPrepareEndsIdle(w: World, plan: Plan, acts: seq<Action>, k: nat, landed: bool)
    requires w.proc.AtRest() && Mirrors(w, plan, acts) && Prepares(acts) && k < |plan|
    requires Writes(acts[k]) && acts[k].o.Done?
    ensures var done := acts[..k] + [Failing(acts[k], landed)]; Legal(w, done) && Exec(w, done).proc == w.proc
  {
    hide Enabled, Apply, Perform, Failing, Prepares, DiskOnly;
    StepIsNext(w, plan, acts, k);
    PreparesStep(acts, k);
    DiskOnlyRun(w, acts[..k]);
    FailedWriteIsStep(Exec(w, acts[..k]), acts[k], landed);
    RunExtends(w, acts[..k], Failing(acts[k], landed));
  }

  lemma PreparesStep(acts: seq<Action>, k: nat)
    requires Prepares(acts) && k < |acts|
    ensures DiskOnly(acts[..k]) && (LeavesProcess(acts[k]) || acts[k].Request?)
  {
    var n := |acts| - 1;
    if DiskOnly(acts) {
      assert acts[k] in acts;
    } else if k < n {
      assert acts[..n][k] in acts[..n] && acts[..k] == acts[..n][..k];
    }
  }

  lemma RetainStep(w: World)
    requires w.proc.phase.Installing?
    ensures Enabled(w, Retain)
    ensures Apply(w, Retain).proc == w.proc.(phase := Idle, retained := Some(w.proc.phase.kept))
  {
  }

  // A successful exchange whose commit is cut off by a failing write leaves its successor
  // to the loop, which retains it.
  lemma FailedCommitRetains(w: World, plan: Plan, acts: seq<Action>, k: nat, landed: bool)
    requires Sound(w) && Mirrors(w, plan, acts) && k < |plan| && acts[0].Commit? && DiskOnly(acts[1..])
    requires w.proc.phase.Answered? && w.proc.phase.answer.Succeeded? && Writes(acts[k]) && acts[k].o.Done?
    ensures var done := acts[..k] + [Failing(acts[k], landed)];
            var s := Successor(w.proc.phase.source, w.proc.phase.answer.cookie, w.proc.phase.answer.successor);
            && Legal(w, done) && Enabled(Exec(w, done), Retain)
            && Apply(Exec(w, done), Retain).proc == w.proc.(phase := Idle, retained := Some(s))
  {
    hide DiskOnly, Sound, Enabled, Apply, Failing, Perform;
    StepIsNext(w, plan, acts, k);
    var u := Exec(w, acts[..k]);
    FailedWriteIsStep(u, acts[k], landed);
    RunExtends(w, acts[..k], Failing(acts[k], landed));
    CommitThenDisk(w, acts, k);
    if k == 0 { CommitEndsExchange(w, acts[0]); }
    RetainStep(Exec(w, acts[..k] + [Failing(acts[k], landed)]));
  }

  lemma CommitThenDisk(w: World, acts: seq<Action>, k: nat)
    requires acts != [] && acts[0].Commit? && DiskOnly(acts[1..]) && k < |acts|
    requires Legal(w, acts[..k]) && w.proc.phase.Answered?
    ensures k == 0 ==> Exec(w, acts[..k]) == w
    ensures k > 0 ==> Exec(w, acts[..k]).proc == AfterCommit(w.proc) && LeavesProcess(acts[k])
    decreases k
  {
    hide Enabled;
    if k > 0 {
      var n := k - 1;
      assert acts[k] == acts[1..][n] && acts[1..][n] in acts[1..];
      assert acts[..k][..n] == acts[..n] && acts[..k][n] == acts[n];
      CommitThenDisk(w, acts, n);
      var u := Exec(w, acts[..n]);
      assert Exec(w, acts[..k]) == Apply(u, acts[n]);
      if n == 0 {
        CommitEndsExchange(u, acts[0]);
      } else {
        DiskStepLeavesProcess(u, acts[n]);
      }
    }
  }

  lemma CommitEndsExchange(w: World, a: Action)
    requires Enabled(w, a) && a.Commit?
    ensures Apply(w, a).proc == AfterCommit(w.proc)
  {
    hide KeysInJournal, CommitFile, Spending.Forgotten;
  }
}
