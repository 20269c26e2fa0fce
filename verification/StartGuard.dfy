// Starting audits without starting one twice (audit/runs.py, audit/start.py), and what the
// status report says of the same runs (audit/status.py).
module StartGuard {
  import opened Wrappers
  import opened Lifecycle
  import opened Ledger
  import opened LedgerFile

  // out_of_date, with None for unknown.
  function OutOfDate(current: Option<string>, audited: Option<string>): Option<bool> {
    if current.None? || audited.None? then None else Some(current != audited)
  }

  predicate OnHead(run: AuditRun, head: Option<string>) {
    head.None? || run.currentHead.None? || run.currentHead == head
  }

  // _current_head_active_runs
  function CurrentHeadRuns(runs: seq<AuditRun>, head: Option<string>): seq<AuditRun> {
    if runs == [] then []
    else (if OnHead(runs[0], head) then [runs[0]] else []) + CurrentHeadRuns(runs[1..], head)
  }

  // The runs that make a start answer "already".
  function Guard(runs: seq<AuditRun>, action: string, head: Option<string>): seq<AuditRun> {
    CurrentHeadRuns(ActiveForAction(runs, action), head)
  }

  lemma {:induction false} CurrentHeadMembers(runs: seq<AuditRun>, head: Option<string>, run: AuditRun)
    ensures run in CurrentHeadRuns(runs, head) <==> run in runs && OnHead(run, head)
  {
    if runs != [] {
      CurrentHeadMembers(runs[1..], head, run);
    }
  }

  lemma GuardMembers(runs: seq<AuditRun>, action: string, head: Option<string>, run: AuditRun)
    ensures run in Guard(runs, action, head) <==>
            run in runs && run.actionKey == Some(action) && IsActive(run) && OnHead(run, head)
  {
    CurrentHeadMembers(ActiveForAction(runs, action), head, run);
    ActiveForActionMembers(runs, action, run);
  }

  // ---------------------------------------------------------------- one start

  datatype Rerun = Rerun(head: Option<string>, audited: map<string, string>)

  function AuditedHead(rerun: Rerun, action: string): Option<string> {
    if action in rerun.audited then Some(rerun.audited[action]) else None
  }

  // What the gateway answers to a start: a task identity, or an upstream failure.
  datatype StartAnswer = Accepted(taskId: Option<string>, status: Option<string>) | StartFailure

  datatype StartResult =
    | AlreadyRunning(taskId: Option<string>, status: Option<string>)
    | AlreadyQueued(taskId: Option<string>, status: Option<string>)
    | UpToDate
    | FailedToStart
    | Started(taskId: Option<string>, status: Option<string>)

  // Whether a start reaches the gateway at all.
  predicate Proceeds(action: string, rerun: Rerun, runs: seq<AuditRun>) {
    Guard(runs, action, rerun.head) == [] && OutOfDate(rerun.head, AuditedHead(rerun, action)) != Some(false)
  }

  function NewEntry(repoId: string, projectId: string, action: string, rerun: Rerun, taskId: Option<string>,
                    status: Option<string>, observed: Moment, expires: Moment): Entry
  {
    Entry(repoId, projectId, action, taskId, status, rerun.head, AuditedHead(rerun, action), observed, None, expires)
  }

  // A run of the action that nothing ended.
  predicate UnderWay(run: AuditRun, action: string) {
    run.actionKey == Some(action) && run.completedAt.None? && !IsTerminalStatus(run.status)
  }

  // A run that keeps its action from being started: it is not known to be on another head.
  predicate Blocks(run: AuditRun, action: string, head: Option<string>) {
    UnderWay(run, action) && (head.None? || run.currentHead.None? || run.currentHead == head)
  }

  // The report of the action is known to be of the current head.
  predicate KnownFresh(rerun: Rerun, action: string) {
    rerun.head.Some? && action in rerun.audited && rerun.audited[action] == rerun.head.value
  }

  // What the runs found, the heads and the gateway make of one audit.
  ghost predicate Decides(r: StartResult, action: string, rerun: Rerun, runs: seq<AuditRun>, usable: bool,
                          answer: StartAnswer) {
    var blocked := exists run <- runs :: Blocks(run, action, rerun.head);
    && (r.AlreadyRunning? || r.AlreadyQueued? <==> blocked)
    && (blocked ==>
          exists run <- runs ::
            && Blocks(run, action, rerun.head) && run.taskId == r.taskId && run.status == r.status
            && (r.AlreadyRunning? <==> RunLifecycle(run).Running?)
            && forall other <- runs :: Blocks(other, action, rerun.head) ==> KeyAtMost(KeyFor(other), KeyFor(run)))
    && (r.UpToDate? <==> !blocked && KnownFresh(rerun, action))
    && (r.Started? <==> !blocked && !KnownFresh(rerun, action) && usable && answer.Accepted?)
    && (r.Started? ==> r.taskId == answer.taskId && r.status == answer.status)
  }

  lemma GuardingRun(runs: seq<AuditRun>, action: string, head: Option<string>, run: AuditRun)
    ensures run in Guard(runs, action, head) <==> run in runs && Blocks(run, action, head)
  {
    hide IsActive, IsTerminalStatus;
    GuardMembers(runs, action, head, run);
    ActiveMeansNotEnded(run);
  }

  lemma GuardIsExact(runs: seq<AuditRun>, action: string, head: Option<string>)
    ensures forall run :: run in Guard(runs, action, head) <==> run in runs && Blocks(run, action, head)
    ensures Guard(runs, action, head) != [] <==> exists run <- runs :: Blocks(run, action, head)
  {
    hide Guard, Blocks;
    forall run ensures run in Guard(runs, action, head) <==> run in runs && Blocks(run, action, head) {
      GuardingRun(runs, action, head, run);
    }
    if Guard(runs, action, head) != [] {
      assert Guard(runs, action, head)[0] in Guard(runs, action, head);
    }
  }

  // A start reaches the gateway exactly when no run of the action is under way, on the
  // current head or on an unknown one, and the report is not known to be of that head.
  lemma ProceedsExactlyWhen(action: string, rerun: Rerun, runs: seq<AuditRun>)
    ensures Proceeds(action, rerun, runs) <==>
            && !(exists run <- runs ::
                   && run.actionKey == Some(action) && run.completedAt.None? && !IsTerminalStatus(run.status)
                   && (rerun.head.None? || run.currentHead.None? || run.currentHead == rerun.head))
            && !(rerun.head.Some? && action in rerun.audited && rerun.audited[action] == rerun.head.value)
  {
    hide Guard, IsTerminalStatus;
    GuardIsExact(runs, action, rerun.head);
  }

  // What one start of a batch did to the ledger file, and the runs it decided by.
  datatype StartLog = StartLog(
    interference: seq<Transaction>,
    reconcile: Transaction,
    runs: seq<AuditRun>,
    recorded: seq<Transaction>)
  {
    function Transactions(): seq<Transaction> {
      interference + [reconcile] + recorded
    }

    // The runs are what reconcile answered for this file.
    predicate Answers(file: seq<Entry>) {
      && reconcile.Reconcile?
      && runs == ReconciledRuns(Seen(AfterAll(file, interference), reconcile.via), reconcile.commit)
    }
  }

  class AuditStartService {
    const ledger: FileAuditLedger
    // The actions the gateway was asked to start.
    ghost var gatewayCalls: seq<string>

    constructor (ledger: FileAuditLedger)
      ensures this.ledger == ledger && gatewayCalls == []
    {
      this.ledger := ledger;
      gatewayCalls := [];
    }

    // _start_one_audit. `usable` is whether a task body can be built for the action. A
    // started audit whose record cannot be written raises; the run was started all the same.
    method StartOneAudit(repoId: string, projectId: string, action: string, rerun: Rerun, runs: seq<AuditRun>,
                         usable: bool, answer: StartAnswer, observed: Moment, expires: Moment, via: Access)
      returns (r: Reply<StartResult, LedgerError>, ghost outcome: StartResult)
      modifies this`gatewayCalls, ledger`entries
      ensures gatewayCalls == old(gatewayCalls) + (if Proceeds(action, rerun, runs) && usable then [action] else [])
      ensures Decides(outcome, action, rerun, runs, usable, answer)
      ensures r.Raised? <==> outcome.Started? && !via.write.Done?
      ensures r.Value? ==> r.value == outcome
      // What a landed record says of the run.
      ensures outcome.Started? && via.write.Lands() && repoId != "" && projectId != "" && action != "" ==>
                exists e <- ledger.entries ::
                  && e.repoId == repoId && e.projectId == projectId && e.auditKey == action
                  && e.taskId == answer.taskId && e.taskStatus == answer.status && e.currentHead == rerun.head
                  && e.auditedHead == (if action in rerun.audited then Some(rerun.audited[action]) else None)
                  && e.observed == observed && e.startedAt.None? && e.expires == expires
      ensures ledger.entries ==
              if outcome.Started?
              then After(old(ledger.entries),
                         Record(NewEntry(repoId, projectId, action, rerun, answer.taskId, answer.status, observed,
                                         expires), via))
              else old(ledger.entries)
    {
      hide After, Guard, Representative, OutOfDate, Decides, RunLifecycle, NewEntry;
      var matching := Guard(runs, action, rerun.head);
      if matching != [] {
        var run := Representative(matching);
        var already := if RunLifecycle(run).Running? then AlreadyRunning(run.taskId, run.status)
                       else AlreadyQueued(run.taskId, run.status);
        RepresentativeAnswers(action, rerun, runs, usable, answer);
        return Value(already), already;
      }
      UnblockedAnswer(action, rerun, runs, usable, answer);
      if OutOfDate(rerun.head, AuditedHead(rerun, action)) == Some(false) {
        return Value(UpToDate), UpToDate;
      }
      if !usable {
        return Value(FailedToStart), FailedToStart;
      }
      gatewayCalls := gatewayCalls + [action];
      if answer.StartFailure? {
        return Value(FailedToStart), FailedToStart;
      }
      outcome := Started(answer.taskId, answer.status);
      if repoId != "" && projectId != "" && action != "" && via.write.Lands() {
        RecordIsOfTheRun(ledger.entries, repoId, projectId, action, rerun, answer.taskId, answer.status, observed,
                         expires, via);
      }
      var _ :- ledger.RecordStarted(
        NewEntry(repoId, projectId, action, rerun, answer.taskId, answer.status, observed, expires), via);
      r := Value(Started(answer.taskId, answer.status));
    }

    // Each audit in order, until a record cannot be written. `writes` says how each record
    // fares with the file.
    method StartEach(repoId: string, projectId: string, audits: seq<string>, rerun: Rerun, runs: seq<AuditRun>,
                     usable: string -> bool, answers: string -> StartAnswer, observed: Moment, expires: Moment,
                     writes: seq<Access>)
      returns (r: Reply<seq<StartResult>, LedgerError>, ghost outcomes: seq<StartResult>)
      requires |writes| == |audits|
      modifies this`gatewayCalls, ledger`entries
      ensures |outcomes| <= |audits|
      ensures forall i :: 0 <= i < |outcomes| ==>
                Decides(outcomes[i], audits[i], rerun, runs, usable(audits[i]), answers(audits[i]))
      ensures gatewayCalls == old(gatewayCalls) + Attempted(audits[..|outcomes|], rerun, runs, usable)
      ensures ledger.entries ==
              AfterAll(old(ledger.entries),
                       Recordings(repoId, projectId, audits[..|outcomes|], rerun, outcomes, writes, observed, expires))
      ensures r.Raised? <==> outcomes != [] && Unrecorded(outcomes[|outcomes| - 1], writes[|outcomes| - 1])
      ensures forall i :: 0 <= i < |outcomes| - 1 ==> !Unrecorded(outcomes[i], writes[i])
      ensures r.Value? ==> r.value == outcomes && |outcomes| == |audits|
    {
      hide Proceeds, After, AfterAll, NewEntry, Decides, Recordings, Attempted;
      outcomes := [];
      var results: seq<StartResult> := [];
      ghost var recorded: seq<Transaction> := [];
      AfterNone(ledger.entries);
      NothingStarted(repoId, projectId, audits, rerun, writes, observed, expires, runs, usable);
      for i := 0 to |audits|
        invariant results == outcomes && |outcomes| == i
        invariant forall j :: 0 <= j < i ==>
                    Decides(outcomes[j], audits[j], rerun, runs, usable(audits[j]), answers(audits[j]))
        invariant gatewayCalls == old(gatewayCalls) + Attempted(audits[..i], rerun, runs, usable)
        invariant ledger.entries == AfterAll(old(ledger.entries), recorded)
        invariant recorded == Recordings(repoId, projectId, audits[..i], rerun, outcomes, writes, observed, expires)
        invariant forall j :: 0 <= j < i ==> !Unrecorded(outcomes[j], writes[j])
      {
        var started, outcome :=
          StartOneAudit(repoId, projectId, audits[i], rerun, runs, usable(audits[i]), answers(audits[i]),
                                              observed, expires, writes[i]);
        OneMoreStart(repoId, projectId, audits, i, rerun, outcomes, outcome, writes, observed, expires, runs, usable);
        ghost var more := RecordingOf(repoId, projectId, audits[i], rerun, outcome, writes[i], observed, expires);
        AppendsRecord(old(ledger.entries), recorded, more);
        StartedAnswer(outcome, audits[i], rerun, runs, usable(audits[i]), answers(audits[i]));
        recorded := recorded + more;
        outcomes := outcomes + [outcome];
        if started.Raised? {
          return Raised(started.error), outcomes;
        }
        results := results + [started.value];
      }
      assert audits[..|audits|] == audits;
      r := Value(results);
    }

    // start_audits_for_target: the runs are read once, then each audit is decided.
    method Start(repoId: string, projectId: string, audits: seq<string>, rerun: Rerun, upstream: seq<AuditRun>,
                 lookup: string -> Lookup, usable: string -> bool, answers: string -> StartAnswer,
                 now: int, observed: Moment, expires: Moment, rounds: seq<Round>, writes: seq<Access>)
      returns (r: Reply<seq<StartResult>, LedgerError>, ghost outcomes: seq<StartResult>, ghost log: StartLog,
               ghost performed: nat)
      requires |rounds| == MAX_LOOKUP_ROUNDS + 1 && |writes| == |audits|
      modifies this`gatewayCalls, ledger`entries
      // What it read, and what it and others did to the file.
      ensures 0 < performed <= MAX_LOOKUP_ROUNDS && log.interference == Interference(rounds, performed)
      ensures log.reconcile.Reconcile? && log.reconcile.via == rounds[MAX_LOOKUP_ROUNDS].via
      ensures var c := log.reconcile.commit;
              c == Commit(repoId, upstream, c.cache, now, ledger.graceSeconds)
                && forall id <- c.cache :: c.cache[id] == lookup(id)
      ensures ledger.entries == AfterAll(old(ledger.entries), log.Transactions())
      // What it decided, and which decisions reached the gateway and the file.
      ensures |outcomes| <= |audits|
      ensures forall i :: 0 <= i < |outcomes| ==>
                Decides(outcomes[i], audits[i], rerun, log.runs, usable(audits[i]), answers(audits[i]))
      ensures gatewayCalls == old(gatewayCalls) + Attempted(audits[..|outcomes|], rerun, log.runs, usable)
      ensures log.recorded ==
              Recordings(repoId, projectId, audits[..|outcomes|], rerun, outcomes, writes, observed, expires)
      // How it ends.
      ensures var unread := Raises(AfterAll(old(ledger.entries), log.interference), log.reconcile);
              && (if unread then outcomes == [] else log.Answers(old(ledger.entries)))
              && (r.Raised? <==>
                    unread || (outcomes != [] && Unrecorded(outcomes[|outcomes| - 1], writes[|outcomes| - 1])))
      ensures forall i :: 0 <= i < |outcomes| - 1 ==> !Unrecorded(outcomes[i], writes[i])
      ensures r.Value? ==> r.value == outcomes && |outcomes| == |audits|
    {
      hide ReconciledRuns, Proceeds, After, AfterAll, Decides, Raises, Seen, Interference, Recordings, Unrecorded;
      var reconciled, rounds', lookedUp, decided := ledger.Reconcile(repoId, upstream, lookup, now, rounds);
      performed := rounds';
      ghost var reconcile := Transaction.Reconcile(decided, rounds[MAX_LOOKUP_ROUNDS].via);
      ghost var interference := Interference(rounds, performed);
      CacheAnswers(decided.cache, lookedUp, lookup);
      AfterAppend(old(ledger.entries), interference, [reconcile]);
      AfterOne(AfterAll(old(ledger.entries), interference), reconcile);
      if reconciled.Raised? {
        log := StartLog(interference, reconcile, [], []);
        assert log.Transactions() == interference + [reconcile];
        NothingStarted(repoId, projectId, audits, rerun, writes, observed, expires, [], usable);
        return Raised(reconciled.error), [], log, performed;
      }
      var runs := reconciled.value;
      r, outcomes := StartEach(repoId, projectId, audits, rerun, runs, usable, answers, observed, expires, writes);
      log := StartLog(interference, reconcile, runs,
                      Recordings(repoId, projectId, audits[..|outcomes|], rerun, outcomes, writes, observed, expires));
      AfterAppend(old(ledger.entries), interference + [reconcile], log.recorded);
    }
  }

  lemma RepresentativeAnswers(action: string, rerun: Rerun, runs: seq<AuditRun>, usable: bool, answer: StartAnswer)
    requires Guard(runs, action, rerun.head) != []
    ensures var run := Representative(Guard(runs, action, rerun.head));
            Decides(if RunLifecycle(run).Running? then AlreadyRunning(run.taskId, run.status)
                    else AlreadyQueued(run.taskId, run.status), action, rerun, runs, usable, answer)
  {
    hide Guard, RepresentativeBy, Blocks, RunLifecycle, KnownFresh, KeyFor;
    var matching := Guard(runs, action, rerun.head);
    GuardIsExact(runs, action, rerun.head);
    RepresentativeIsMaximal(matching, KeyFor);
  }

  lemma UnblockedAnswer(action: string, rerun: Rerun, runs: seq<AuditRun>, usable: bool, answer: StartAnswer)
    requires Guard(runs, action, rerun.head) == []
    ensures var known := OutOfDate(rerun.head, AuditedHead(rerun, action)) == Some(false);
            && (known ==> Decides(UpToDate, action, rerun, runs, usable, answer))
            && (!known && (!usable || answer.StartFailure?) ==>
                  Decides(FailedToStart, action, rerun, runs, usable, answer))
            && (!known && usable && answer.Accepted? ==>
                  Decides(Started(answer.taskId, answer.status), action, rerun, runs, usable, answer))
  {
    hide Guard, Blocks;
    GuardIsExact(runs, action, rerun.head);
  }

  // The record a start writes is of its own repository, project, action, task and heads.
  lemma RecordIsOfTheRun(entries: seq<Entry>, repoId: string, projectId: string, action: string, rerun: Rerun,
                         taskId: Option<string>, status: Option<string>, observed: Moment, expires: Moment, via: Access)
    requires repoId != "" && projectId != "" && action != "" && via.write.Lands()
    ensures var started := NewEntry(repoId, projectId, action, rerun, taskId, status, observed, expires);
            exists e <- After(entries, Record(started, via)) ::
              && e == started
              && e.repoId == repoId && e.projectId == projectId && e.auditKey == action
              && e.taskId == taskId && e.taskStatus == status && e.currentHead == rerun.head
              && e.auditedHead == (if action in rerun.audited then Some(rerun.audited[action]) else None)
              && e.observed == observed && e.startedAt.None? && e.expires == expires
  {
    hide After;
    var started := NewEntry(repoId, projectId, action, rerun, taskId, status, observed, expires);
    TransactionRemovesExactly(entries, Record(started, via), started);
  }

  lemma NothingStarted(repoId: string, projectId: string, audits: seq<string>, rerun: Rerun, writes: seq<Access>,
                       observed: Moment, expires: Moment, runs: seq<AuditRun>, usable: string -> bool)
    requires |writes| == |audits|
    ensures Recordings(repoId, projectId, audits[..0], rerun, [], writes, observed, expires) == []
    ensures Attempted(audits[..0], rerun, runs, usable) == []
  {
  }

  lemma OneMoreStart(repoId: string, projectId: string, audits: seq<string>, i: nat, rerun: Rerun,
                     outcomes: seq<StartResult>, outcome: StartResult, writes: seq<Access>, observed: Moment,
                       expires: Moment, runs: seq<AuditRun>, usable: string -> bool)
    requires i < |audits| == |writes| && |outcomes| == i
    ensures Recordings(repoId, projectId, audits[..i + 1], rerun, outcomes + [outcome], writes, observed, expires) ==
            Recordings(repoId, projectId, audits[..i], rerun, outcomes, writes, observed, expires)
            + RecordingOf(repoId, projectId, audits[i], rerun, outcome, writes[i], observed, expires)
    ensures Attempted(audits[..i + 1], rerun, runs, usable) ==
            Attempted(audits[..i], rerun, runs, usable)
            + (if Proceeds(audits[i], rerun, runs) && usable(audits[i]) then [audits[i]] else [])
  {
    hide Proceeds, RecordingOf;
    assert (outcomes + [outcome])[..i] == outcomes && audits[..i + 1][..i] == audits[..i]
      && audits[..i + 1][i] == audits[i];
  }

  predicate Unrecorded(r: StartResult, via: Access) {
    r.Started? && !via.write.Done?
  }

  lemma CacheAnswers(cache: map<string, Lookup>, lookedUp: seq<string>, lookup: string -> Lookup)
    requires CacheOf(cache, lookedUp, lookup)
    ensures forall id <- cache :: cache[id] == lookup(id)
  {
  }

  lemma StartedAnswer(r: StartResult, action: string, rerun: Rerun, runs: seq<AuditRun>, usable: bool,
                      answer: StartAnswer)
    requires Decides(r, action, rerun, runs, usable, answer)
    ensures r.Started? ==> answer == Accepted(r.taskId, r.status)
  {
  }

  lemma AppendsRecord(file: seq<Entry>, recorded: seq<Transaction>, more: seq<Transaction>)
    requires |more| <= 1
    ensures AfterAll(file, recorded + more) ==
            if more == [] then AfterAll(file, recorded) else After(AfterAll(file, recorded), more[0])
  {
    hide After, AfterAll;
    if more == [] {
      assert recorded + more == recorded;
    } else {
      AfterAppend(file, recorded, more);
      AfterOne(AfterAll(file, recorded), more[0]);
      assert more == [more[0]];
    }
  }

  // The ledger record of a started audit.
  function RecordingOf(repoId: string, projectId: string, action: string, rerun: Rerun, r: StartResult, via: Access,
                       observed: Moment, expires: Moment): seq<Transaction>
  {
    if r.Started? then [Record(NewEntry(repoId, projectId, action, rerun, r.taskId, r.status, observed, expires),
                               via)] else []
  }

  // One ledger record per started audit, in order.
  function Recordings(repoId: string, projectId: string, audits: seq<string>, rerun: Rerun, results: seq<StartResult>,
                      writes: seq<Access>, observed: Moment, expires: Moment): seq<Transaction>
    requires |results| == |audits| <= |writes|
  {
    if audits == [] then []
    else
      var n := |audits| - 1;
      Recordings(repoId, projectId, audits[..n], rerun, results[..n], writes, observed, expires)
      + RecordingOf(repoId, projectId, audits[n], rerun, results[n], writes[n], observed, expires)
  }

  // Every started audit of a batch has its record: of its own action, its own task, the head
  // it was started on and the time it expires; and nothing else is recorded.
  lemma {:induction false} RecordingsAreOfTheRuns(repoId: string, projectId: string, audits: seq<string>,
                                                  rerun: Rerun, results: seq<StartResult>, writes: seq<Access>,
                                                  observed: Moment, expires: Moment, t: Transaction)
    requires |results| == |audits| <= |writes|
    ensures t in Recordings(repoId, projectId, audits, rerun, results, writes, observed, expires) <==>
            exists i :: 0 <= i < |audits| && results[i].Started?
                        && t.Record? && t.via == writes[i]
                        && t.entry.repoId == repoId && t.entry.projectId == projectId
                        && t.entry.auditKey == audits[i] && t.entry.taskId == results[i].taskId
                        && t.entry.taskStatus == results[i].status && t.entry.currentHead == rerun.head
                        && t.entry.auditedHead ==
                           (if audits[i] in rerun.audited then Some(rerun.audited[audits[i]]) else None)
                        && t.entry.observed == observed && t.entry.startedAt.None? && t.entry.expires == expires
  {
    if audits != [] {
      var n := |audits| - 1;
      RecordingsAreOfTheRuns(repoId, projectId, audits[..n], rerun, results[..n], writes, observed, expires, t);
    }
  }

  // The gateway calls of a batch, in order.
  function Attempted(audits: seq<string>, rerun: Rerun, runs: seq<AuditRun>, usable: string -> bool): seq<string> {
    if audits == [] then []
    else
      var n := |audits| - 1;
      Attempted(audits[..n], rerun, runs, usable)
      + (if Proceeds(audits[n], rerun, runs) && usable(audits[n]) then [audits[n]] else [])
  }

  function Occurrences(audits: seq<string>, action: string): nat {
    if audits == [] then 0
    else Occurrences(audits[..|audits| - 1], action) + (if audits[|audits| - 1] == action then 1 else 0)
  }

  lemma OccurrencesOfNext(audits: seq<string>, next: string, action: string)
    ensures Occurrences(audits + [next], action) == Occurrences(audits, action) + (if next == action then 1 else 0)
  {
    assert (audits + [next])[..|audits|] == audits;
  }

  // One batch asks the gateway for an action as often as the batch names it, and not at
  // all once a run of it is known: distinct audits are what rules out a double start.
  lemma {:induction false} BatchStartsEachNamedAudit(audits: seq<string>, rerun: Rerun, runs: seq<AuditRun>,
                                                     usable: string -> bool, action: string)
    ensures Occurrences(Attempted(audits, rerun, runs, usable), action) ==
            if Proceeds(action, rerun, runs) && usable(action) then Occurrences(audits, action) else 0
  {
    hide Proceeds, Attempted, Occurrences;
    LastAttempt(audits, rerun, runs, usable, action);
    if audits != [] {
      var n := |audits| - 1;
      BatchStartsEachNamedAudit(audits[..n], rerun, runs, usable, action);
      OccurrencesOfNext(Attempted(audits[..n], rerun, runs, usable), audits[n], action);
    }
  }

  lemma LastAttempt(audits: seq<string>, rerun: Rerun, runs: seq<AuditRun>, usable: string -> bool, action: string)
    ensures audits == [] ==> Attempted(audits, rerun, runs, usable) == [] && Occurrences([], action) == 0
    ensures audits != [] ==>
              var n := |audits| - 1;
              var head := Attempted(audits[..n], rerun, runs, usable);
              && Attempted(audits, rerun, runs, usable) ==
                 (if Proceeds(audits[n], rerun, runs) && usable(audits[n]) then head + [audits[n]] else head)
              && Occurrences(audits, action) ==
                 Occurrences(audits[..n], action) + (if audits[n] == action then 1 else 0)
  {
    hide Proceeds;
  }

  // ------------------------------------------------------------ the duplicate guard

  // Task-by-id answers about the task it was asked about.
  predicate AnswersAsked(cache: map<string, Lookup>) {
    forall id <- cache :: cache[id].Found? ==> cache[id].detail.taskId in {id, ""}
  }

  // No other action of the repository carries this entry's task id.
  predicate TaskIsOwn(entries: seq<Entry>, e: Entry) {
    forall x <- entries :: x.repoId == e.repoId && x.taskId == e.taskId ==> x.auditKey == e.auditKey
  }

  // The entry still guards: nothing the commit looks at ended it.
  predicate StillGuards(e: Entry, c: Commit) {
    && e.repoId == c.repoId && e.taskId.Some? && e.taskId.value != ""
    && c.now < e.expires.at && !IsTerminalStatus(e.taskStatus)
    && (e.taskId.value in c.cache ==> !Ended(e, c))
  }

  lemma GuardedEntryIsProjected(e: Entry, c: Commit)
    requires StillGuards(e, c) && AnswersAsked(c.cache)
    ensures var outcome := OutcomeFor(e, c);
            && outcome.suppress == e.taskId && outcome.projected.Some?
            && var run := outcome.projected.value;
               run.taskId == e.taskId && run.actionKey == Some(e.auditKey) && run.currentHead == e.currentHead
                 && IsActive(run)
  {
    ActiveMeansNotEnded(Projected(e, None));
  }

  // A projection carries the task id of its own entry.
  lemma ProjectionKeepsTaskId(x: Entry, c: Commit)
    requires AnswersAsked(c.cache) && OutcomeFor(x, c).projected.Some?
    ensures OutcomeFor(x, c).projected.value.taskId.Some? && OutcomeFor(x, c).projected.value.taskId.value != "" ==>
              OutcomeFor(x, c).projected.value.taskId == x.taskId && x.repoId == c.repoId
  {
  }

  lemma SameIdentityIsSameEntry(entries: seq<Entry>, a: Entry, b: Entry)
    requires UniqueIdentities(entries) && a in entries && b in entries && SameIdentity(a, b)
    ensures a == b
  {
    var i :| 0 <= i < |entries| && entries[i] == a;
    var j :| 0 <= j < |entries| && entries[j] == b;
    assert i == j;
  }

  // The pool of projected and unsuppressed rows holds one run of the entry's task: its own.
  lemma OnlyRunOfTask(entries: seq<Entry>, c: Commit, e: Entry, run: AuditRun)
    requires UniqueIdentities(entries) && e in entries && StillGuards(e, c) && TaskIsOwn(entries, e)
             && AnswersAsked(c.cache)
    requires run in ProjectedRuns(entries, c) || run in UnsuppressedRuns(c.upstream, SuppressedIds(entries, c))
    requires run.taskId == e.taskId
    ensures OutcomeFor(e, c).projected == Some(run)
  {
    hide OutcomeFor, StillGuards, AnswersAsked, UniqueIdentities, ProjectedRuns, UnsuppressedRuns;
    GuardedTaskId(e, c);
    GuardedEntryIsProjected(e, c);
    assert e.taskId.value in SuppressedIds(entries, c);
    UnsuppressedMembers(c.upstream, SuppressedIds(entries, c), run);
    ProjectedMembers(entries, c, run);
    var x :| x in entries && OutcomeFor(x, c).projected == Some(run);
    ProjectionKeepsTaskId(x, c);
    SameIdentityIsSameEntry(entries, x, e);
  }

  lemma ProjectionIsInPool(entries: seq<Entry>, c: Commit, e: Entry)
    requires e in entries && OutcomeFor(e, c).projected.Some?
    ensures OutcomeFor(e, c).projected.value in ProjectedRuns(entries, c)
  {
    ProjectedMembers(entries, c, OutcomeFor(e, c).projected.value);
  }

  // A recorded run keeps answering for its action, whatever rows active-runs returned.
  lemma RecordedRunGuards(entries: seq<Entry>, c: Commit, runs: seq<AuditRun>, e: Entry, head: Option<string>)
    requires UniqueIdentities(entries) && e in entries && StillGuards(e, c) && TaskIsOwn(entries, e)
             && AnswersAsked(c.cache)
    requires runs == ReconciledRuns(entries, c)
    requires head.None? || e.currentHead.None? || e.currentHead == head
    ensures exists run <- Guard(runs, e.auditKey, head) ::
              run.taskId == e.taskId && OutcomeFor(e, c).projected == Some(run)
  {
    hide Deduped, OutcomeFor, StillGuards, AnswersAsked, KeyFor, Lifecycle.IsActive, Representative, UniqueIdentities,
         ProjectedRuns, UnsuppressedRuns, SuppressedIds, TaskIsOwn, Guard, Identities;
    var pool := ProjectedRuns(entries, c) + UnsuppressedRuns(c.upstream, SuppressedIds(entries, c));
    GuardedTaskId(e, c);
    GuardedEntryIsProjected(e, c);
    var run := OutcomeFor(e, c).projected.value;
    ProjectionIsInPool(entries, c, e);
    assert run in pool;
    var chosen := DedupedHas(pool, run);
    OnlyRunOfTask(entries, c, e, chosen);
    GuardMembers(runs, e.auditKey, head, run);
  }

  // What a start and a status see of a task that was looked up: one run, carrying what the
  // lookup said of it, or none once it said that the task is over.
  lemma LookedUpTaskIsAnswered(entries: seq<Entry>, c: Commit, e: Entry, detail: TaskDetail)
    requires UniqueIdentities(entries) && e in entries && TaskIsOwn(entries, e) && AnswersAsked(c.cache)
    requires e.repoId == c.repoId && c.now < e.expires.at && !IsTerminalStatus(e.taskStatus)
    requires e.taskId.Some? && e.taskId.value != "" && e.taskId.value in c.cache
    requires c.cache[e.taskId.value] == Found(detail)
    ensures var runs := ReconciledRuns(entries, c);
            var status := if detail.status.None? || detail.status.value == "" then e.taskStatus else detail.status;
            && (detail.completedAt.Some? || IsTerminalStatus(status) ==> forall run <- runs :: run.taskId != e.taskId)
            && (detail.completedAt.None? && !IsTerminalStatus(status) ==>
                  exists run <- runs ::
                    && run.taskId == e.taskId && run.actionKey == Some(e.auditKey) && run.status == status
                    && run.completedAt == detail.completedAt && run.currentHead == e.currentHead
                    && (detail.startedAt.Some? && detail.startedAt.value.text != "" ==>
                          run.startedAt == detail.startedAt))
  {
    hide OutcomeFor, AnswersAsked, UniqueIdentities, ReconciledRuns, Guard, TaskIsOwn, IsTerminalStatus;
    LookedUpRunIsExact(e, c, detail);
    if StillGuards(e, c) {
      RecordedRunGuards(entries, c, ReconciledRuns(entries, c), e, None);
      var runs := ReconciledRuns(entries, c);
      forall run ensures run in Guard(runs, e.auditKey, None) ==> run in runs {
        GuardMembers(runs, e.auditKey, None, run);
      }
    } else {
      forall run | run in ReconciledRuns(entries, c) ensures run.taskId != e.taskId {
        EndedTaskIsSilent(entries, c, e, run);
      }
    }
  }

  lemma EndedTaskIsSilent(entries: seq<Entry>, c: Commit, e: Entry, run: AuditRun)
    requires UniqueIdentities(entries) && e in entries && TaskIsOwn(entries, e) && AnswersAsked(c.cache)
    requires e.taskId.Some? && e.taskId.value != "" && e.repoId == c.repoId
    requires OutcomeFor(e, c).suppress == e.taskId && OutcomeFor(e, c).projected.None?
    requires run in ReconciledRuns(entries, c)
    ensures run.taskId != e.taskId
  {
    hide OutcomeFor, AnswersAsked, UniqueIdentities, ProjectedRuns, UnsuppressedRuns, Deduped, Identities, KeyFor,
         IdentityOf;
    AnsweredRunIsInPool(entries, c, run);
    if run.taskId == e.taskId {
      assert e.taskId.value in SuppressedIds(entries, c);
      UnsuppressedMembers(c.upstream, SuppressedIds(entries, c), run);
      ProjectedMembers(entries, c, run);
      var x :| x in entries && OutcomeFor(x, c).projected == Some(run);
      ProjectionKeepsTaskId(x, c);
      SameIdentityIsSameEntry(entries, x, e);
      assert false;
    }
  }

  lemma GuardedTaskId(e: Entry, c: Commit)
    requires StillGuards(e, c)
    ensures e.taskId.Some? && e.taskId.value != "" && e.repoId == c.repoId
  {
  }

  lemma {:induction false} EntriesComeFromRecords(entries: seq<Entry>, ts: seq<Transaction>, x: Entry)
    requires x in AfterAll(entries, ts)
    ensures x in entries || exists t <- ts :: t.Record? && t.entry == x
    decreases |ts|
  {
    hide After, Removes;
    if ts != [] {
      EntriesComeFromRecords(After(entries, ts[0]), ts[1..], x);
      TransactionRemovesExactly(entries, ts[0], x);
    }
  }

  // No other action of the repository is ever recorded under the entry's task id.
  predicate TaskStaysOwn(entries: seq<Entry>, ts: seq<Transaction>, e: Entry) {
    && TaskIsOwn(entries, e)
    && forall t <- ts ::
         t.Record? && t.entry.repoId == e.repoId && t.entry.taskId == e.taskId ==> t.entry.auditKey == e.auditKey
  }

  lemma TaskIsOwnAfterwards(entries: seq<Entry>, ts: seq<Transaction>, e: Entry)
    requires TaskStaysOwn(entries, ts, e)
    ensures TaskIsOwn(AfterAll(entries, ts), e)
  {
    forall x | x in AfterAll(entries, ts) && x.repoId == e.repoId && x.taskId == e.taskId
      ensures x.auditKey == e.auditKey
    {
      EntriesComeFromRecords(entries, ts, x);
    }
  }

  predicate HeadMatches(e: Entry, head: Option<string>) {
    head.None? || e.currentHead.None? || e.currentHead == head
  }

  // The recorded entry e is in the file when the commit reads it, and still guards.
  ghost predicate Guarded(entries: seq<Entry>, ts: seq<Transaction>, e: Entry, c: Commit, via: Access) {
    (exists k :: StandsFrom(entries, ts, e, k)) && via.readable && StillGuards(e, c)
  }

  // After a start recorded a task id for an action on a head, and whatever other
  // processes do to the ledger meanwhile, every later start of that action on that head
  // finds the run and does not call the gateway, as long as the entry stands, the file can
  // be read, and neither the time nor a lookup of its own task ended it.
  lemma NoSecondStart(entries: seq<Entry>, ts: seq<Transaction>, e: Entry, c: Commit, via: Access, rerun: Rerun)
    requires UniqueIdentities(entries) && TaskStaysOwn(entries, ts, e) && AnswersAsked(c.cache)
    requires Guarded(entries, ts, e, c, via) && HeadMatches(e, rerun.head)
    ensures var runs := ReconciledRuns(Seen(AfterAll(entries, ts), via), c);
            && !Proceeds(e.auditKey, rerun, runs)
            && exists run <- Guard(runs, e.auditKey, rerun.head) ::
                 run.taskId == e.taskId && OutcomeFor(e, c).projected == Some(run)
  {
    hide AfterAll, ReconciledRuns, StillGuards, AnswersAsked, UniqueIdentities, StandsFrom, Guard, TaskIsOwn,
         OutcomeFor;
    var before := AfterAll(entries, ts);
    EntryDisappearsOnlyForCause(entries, ts, e);
    RunKeepsUnique(entries, ts);
    TaskIsOwnAfterwards(entries, ts, e);
    RecordedRunGuards(before, c, ReconciledRuns(before, c), e, rerun.head);
  }

  // Nothing but this entry answers for its action: active-runs lists no run of it, and no
  // other entry of it is in the file or ever recorded.
  predicate OnlySource(entries: seq<Entry>, ts: seq<Transaction>, upstream: seq<AuditRun>, e: Entry) {
    && (forall run <- upstream :: run.actionKey != Some(e.auditKey))
    && (forall x <- entries :: x.repoId == e.repoId && x.auditKey == e.auditKey ==> x == e)
    && (forall t <- ts :: t.Record? && t.entry.repoId == e.repoId && t.entry.auditKey == e.auditKey ==> t.entry == e)
  }

  // A run of the action then comes from this entry, read and still guarding.
  lemma GuardComesFromEntry(seen: seq<Entry>, c: Commit, e: Entry, run: AuditRun)
    requires forall row <- c.upstream :: row.actionKey != Some(e.auditKey)
    requires forall x <- seen :: x.repoId == e.repoId && x.auditKey == e.auditKey ==> x == e
    requires c.repoId == e.repoId && e.taskId.Some? && e.taskId.value != ""
    requires run in ReconciledRuns(seen, c) && run.actionKey == Some(e.auditKey)
    ensures e in seen && StillGuards(e, c)
  {
    hide Deduped, UnsuppressedRuns, ProjectedRuns, SuppressedIds, Lifecycle.IsActive, IsTerminalStatus, IdentityOf,
         Identities, KeyFor;
    var pool := ProjectedRuns(seen, c) + UnsuppressedRuns(c.upstream, SuppressedIds(seen, c));
    DedupedIsDeterministic(pool);
    UnsuppressedMembers(c.upstream, SuppressedIds(seen, c), run);
    ProjectedMembers(seen, c, run);
    var x :| x in seen && OutcomeFor(x, c).projected == Some(run);
    ProjectsOwnAction(x, c);
  }

  lemma ProjectsOwnAction(x: Entry, c: Commit)
    requires OutcomeFor(x, c).projected.Some?
    ensures x.repoId == c.repoId && OutcomeFor(x, c).projected.value.actionKey == Some(x.auditKey)
    ensures x.taskId.Some? && x.taskId.value != "" ==> StillGuards(x, c)
  {
    if x.taskId.Some? && x.taskId.value in c.cache && c.cache[x.taskId.value].Found? {
      ActiveMeansNotEnded(Projected(x, Some(c.cache[x.taskId.value].detail)));
    }
  }

  // With no other source, a start finds a run of the action exactly when the entry stands,
  // the file can be read and the entry still guards.
  lemma SecondStartExactly(entries: seq<Entry>, ts: seq<Transaction>, e: Entry, c: Commit, via: Access, rerun: Rerun)
    requires UniqueIdentities(entries) && TaskStaysOwn(entries, ts, e) && AnswersAsked(c.cache)
    requires OnlySource(entries, ts, c.upstream, e) && HeadMatches(e, rerun.head)
    requires c.repoId == e.repoId && e.taskId.Some? && e.taskId.value != ""
    ensures var runs := ReconciledRuns(Seen(AfterAll(entries, ts), via), c);
            Guard(runs, e.auditKey, rerun.head) != [] <==> Guarded(entries, ts, e, c, via)
  {
    hide AfterAll, ReconciledRuns, StillGuards, AnswersAsked, UniqueIdentities, StandsFrom, TaskIsOwn, Guard, IsActive;
    var seen := Seen(AfterAll(entries, ts), via);
    var runs := ReconciledRuns(seen, c);
    if Guarded(entries, ts, e, c, via) {
      NoSecondStart(entries, ts, e, c, via, rerun);
    } else if Guard(runs, e.auditKey, rerun.head) != [] {
      var run := Guard(runs, e.auditKey, rerun.head)[0];
      GuardMembers(runs, e.auditKey, rerun.head, run);
      forall x | x in seen && x.repoId == e.repoId && x.auditKey == e.auditKey ensures x == e {
        EntriesComeFromRecords(entries, ts, x);
      }
      GuardComesFromEntry(seen, c, e, run);
      EntryDisappearsOnlyForCause(entries, ts, e);
      assert false;
    }
  }

  // Without any lookup, an entry recorded once refuses the next start of its action, if the
  // record landed and can be read; with no other source, only then.
  lemma RecordedEntryRefuses(entries: seq<Entry>, e: Entry, write: Access, c: Commit, read: Access, rerun: Rerun)
    requires UniqueIdentities(entries) && TaskIsOwn(entries, e) && Decodable(e)
    requires StillGuards(e, c) && c.cache == map[] && e.currentHead == rerun.head && !KnownFresh(rerun, e.auditKey)
    ensures var runs := ReconciledRuns(Seen(After(entries, Record(e, write)), read), c);
            && (write.write.Lands() && read.readable ==>
                  && !Proceeds(e.auditKey, rerun, runs)
                  && exists run <- Guard(runs, e.auditKey, rerun.head) :: OutcomeFor(e, c).projected == Some(run))
            && (OnlySource(entries, [], c.upstream, e) && e !in entries ==>
                  (Proceeds(e.auditKey, rerun, runs) <==> !write.write.Lands() || !read.readable))
  {
    hide After, AfterAll, ReconciledRuns, Guard, Removes, StillGuards, UniqueIdentities, OutcomeFor;
    var t := Record(e, write);
    AfterOne(entries, t);
    assert AnswersAsked(c.cache);
    TransactionRemovesExactly(entries, t, e);
    EntryDisappearsOnlyForCause(entries, [t], e);
    assert Records(t, e) <==> write.write.Lands();
    GuardedTaskId(e, c);
    if write.write.Lands() && read.readable {
      NoSecondStart(entries, [t], e, c, read, rerun);
    }
    if OnlySource(entries, [], c.upstream, e) && e !in entries {
      assert OnlySource(entries, [t], c.upstream, e);
      SecondStartExactly(entries, [t], e, c, read, rerun);
    }
  }

  // A start repeated at once, with every lookup failing, is refused if the first one could
  // write its record and the second one can read it: it finds a run of the action, on the
  // head, under the task id and with the status the gateway answered. With no other source
  // it is refused only then.
  lemma RepeatedStartIsRefused(entries: seq<Entry>, repoId: string, projectId: string, action: string, first: Rerun,
                               taskId: string, status: Option<string>, observed: Moment, expires: Moment,
                               write: Access, upstream: seq<AuditRun>, now: int, grace: int, read: Access,
                               rerun: Rerun)
    requires UniqueIdentities(entries) && repoId != "" && projectId != "" && action != "" && taskId != ""
    requires forall x <- entries :: x.repoId == repoId && x.taskId == Some(taskId) ==> x.auditKey == action
    requires now < expires.at && !IsTerminalStatus(status)
    requires rerun.head == first.head && !KnownFresh(rerun, action)
    ensures var started := NewEntry(repoId, projectId, action, first, Some(taskId), status, observed, expires);
            var c := Commit(repoId, upstream, map[], now, grace);
            var runs := ReconciledRuns(Seen(After(entries, Record(started, write)), read), c);
            && (write.write.Lands() && read.readable ==>
                  && !Proceeds(action, rerun, runs)
                  && exists run <- runs ::
                       && Blocks(run, action, rerun.head) && run.taskId == Some(taskId) && run.status == status
                       && run.currentHead == rerun.head)
            && ((forall row <- upstream :: row.actionKey != Some(action))
                && (forall x <- entries :: x.repoId == repoId ==> x.auditKey != action) ==>
                  (Proceeds(action, rerun, runs) <==> !write.write.Lands() || !read.readable))
  {
    hide After, AfterAll, ReconciledRuns, Guard, Proceeds, UniqueIdentities, Blocks, IsTerminalStatus, OutcomeFor;
    var e := NewEntry(repoId, projectId, action, first, Some(taskId), status, observed, expires);
    var c := Commit(repoId, upstream, map[], now, grace);
    RecordedEntryRefuses(entries, e, write, c, read, rerun);
    RecordedRunStandsIn(e, c);
    GuardIsExact(ReconciledRuns(Seen(After(entries, Record(e, write)), read), c), action, rerun.head);
    if forall x <- entries :: x.repoId == repoId ==> x.auditKey != action {
      assert e !in entries;
    }
  }

  // A record written while the file could not be read starts the file over, and the next
  // start of the first action reaches the gateway again, whatever is read by then.
  lemma UnreadableRecordForgetsAStart(entries: seq<Entry>, e: Entry, other: Entry, write: WriteOutcome, c: Commit,
                                      read: Access, rerun: Rerun)
    requires var ts := [Record(e, Access(true, Done)), Record(other, Access(false, write))];
             && UniqueIdentities(entries) && TaskStaysOwn(entries, ts, e) && AnswersAsked(c.cache)
             && OnlySource(entries, ts, c.upstream, e) && HeadMatches(e, rerun.head)
    requires c.repoId == e.repoId && e.taskId.Some? && e.taskId.value != "" && other != e && write.Lands()
    requires !KnownFresh(rerun, e.auditKey)
    ensures var ts := [Record(e, Access(true, Done)), Record(other, Access(false, write))];
            Proceeds(e.auditKey, rerun, ReconciledRuns(Seen(AfterAll(entries, ts), read), c))
  {
    hide AfterAll, ReconciledRuns, StillGuards, AnswersAsked, UniqueIdentities, TaskStaysOwn, Guard;
    var ts := [Record(e, Access(true, Done)), Record(other, Access(false, write))];
    SecondStartExactly(entries, ts, e, c, read, rerun);
    LastTransaction(entries, ts, e);
    EntryDisappearsOnlyForCause(entries, ts, e);
    assert Removes(ts[1], e) && !Records(ts[1], e);
  }

  // Two starts of the service on one file, with anything done to it between and during
  // them: the second asks the gateway for an action of the first not at all while the
  // recorded entry guards it, and otherwise, with no other source, as often as it is named.
  lemma TwoStarts(file: seq<Entry>, first: StartLog, between: seq<Transaction>, second: StartLog, e: Entry,
                  rerun: Rerun, audits: seq<string>, usable: string -> bool)
    requires UniqueIdentities(file) && HeadMatches(e, rerun.head) && usable(e.auditKey)
    requires !KnownFresh(rerun, e.auditKey)
    requires second.Answers(AfterAll(AfterAll(file, first.Transactions()), between))
    requires second.reconcile.commit.repoId == e.repoId && AnswersAsked(second.reconcile.commit.cache)
    requires e.taskId.Some? && e.taskId.value != ""
    requires TaskStaysOwn(file, first.Transactions() + between + second.interference, e)
    ensures var ts, c := first.Transactions() + between + second.interference, second.reconcile.commit;
            var guarded := Guarded(file, ts, e, c, second.reconcile.via);
            var calls := Occurrences(Attempted(audits, rerun, second.runs, usable), e.auditKey);
            && (guarded ==> calls == 0)
            && (OnlySource(file, ts, c.upstream, e) ==> calls == if guarded then 0 else Occurrences(audits, e.auditKey))
  {
    hide AfterAll, ReconciledRuns, StillGuards, AnswersAsked, UniqueIdentities, StandsFrom, TaskIsOwn, Guard, Guarded,
         OnlySource, Attempted, Occurrences, TaskStaysOwn;
    var ts, c := first.Transactions() + between + second.interference, second.reconcile.commit;
    AfterAppend(file, first.Transactions() + between, second.interference);
    AfterAppend(file, first.Transactions(), between);
    BatchStartsEachNamedAudit(audits, rerun, second.runs, usable, e.auditKey);
    if Guarded(file, ts, e, c, second.reconcile.via) {
      NoSecondStart(file, ts, e, c, second.reconcile.via, rerun);
    }
    if OnlySource(file, ts, c.upstream, e) {
      SecondStartExactly(file, ts, e, c, second.reconcile.via, rerun);
    }
  }

  // ------------------------------------------------------------------- the status

  datatype CurrentHead =
    | HeadReady
    | HeadUnknown
    | HeadMissing
    | HeadBlocked(staleTask: Option<string>)
    | HeadUnverified(taskId: Option<string>)
    | HeadActive(taskId: Option<string>, lifecycle: TaskLifecycle)
    | HeadImpossible

  function HeadEvidence(run: AuditRun, head: Option<string>): int {
    if head.Some? && run.currentHead == head then 2 else if run.currentHead.Some? then 1 else 0
  }

  function StatusKey(run: AuditRun, head: Option<string>): SortKey {
    [[HeadEvidence(run, head)]] + KeyFor(run)
  }

  // The run the status is about.
  function StatusRun(runs: seq<AuditRun>, action: string, head: Option<string>): Option<AuditRun> {
    var active := ActiveForAction(runs, action);
    if active == [] then None else Some(RepresentativeBy(active, run => StatusKey(run, head)))
  }

  // _runs_by_action
  method RunsByAction(runs: seq<AuditRun>, head: Option<string>) returns (result: map<string, AuditRun>)
    ensures forall action :: action in result <==> StatusRun(runs, action, head).Some?
    ensures forall action <- result :: Some(result[action]) == StatusRun(runs, action, head)
  {
    hide RepresentativeBy, StatusKey;
    var actions := set run <- runs | run.actionKey.Some? :: run.actionKey.value;
    ghost var all := actions;
    result := map[];
    while actions != {}
      invariant actions <= all
      invariant forall action :: action in result <==> action in all - actions && StatusRun(runs, action, head).Some?
      invariant forall action <- result :: Some(result[action]) == StatusRun(runs, action, head)
      decreases |actions|
    {
      var action :| action in actions;
      actions := actions - {action};
      var matching := ActiveForAction(runs, action);
      if matching != [] {
        result := result[action := RepresentativeBy(matching, run => StatusKey(run, head))];
      }
    }
    forall action | StatusRun(runs, action, head).Some? ensures action in all {
      var active := ActiveForAction(runs, action);
      ActiveForActionMembers(runs, action, active[0]);
    }
  }

  // _current_head_status and _active_current_head_status; the last case is the
  // AssertionError.
  function StatusOf(runs: seq<AuditRun>, action: string, rerun: Rerun): CurrentHead {
    var run := StatusRun(runs, action, rerun.head);
    match OutOfDate(rerun.head, AuditedHead(rerun, action))
    case Some(false) => HeadReady
    case None => HeadUnknown
    case Some(true) =>
      if run.None? then HeadMissing
      else if run.value.currentHead.Some? && run.value.currentHead != rerun.head then HeadBlocked(run.value.taskId)
      else if run.value.currentHead.None? then HeadUnverified(run.value.taskId)
      else if RunLifecycle(run.value).Queued? || RunLifecycle(run.value).Running? then
        HeadActive(run.value.taskId, RunLifecycle(run.value))
      else HeadImpossible
  }

  lemma StatusRunIsBest(runs: seq<AuditRun>, action: string, head: Option<string>)
    requires StatusRun(runs, action, head).Some?
    ensures var run := StatusRun(runs, action, head).value;
            && run in runs && run.actionKey == Some(action) && IsActive(run)
            && forall other <- runs :: other.actionKey == Some(action) && IsActive(other) ==>
                 HeadEvidence(other, head) <= HeadEvidence(run, head)
  {
    hide KeyFor, HeadEvidence;
    var active := ActiveForAction(runs, action);
    var key := (run: AuditRun) => StatusKey(run, head);
    var best := RepresentativeBy(active, key);
    RepresentativeIsMaximal(active, key);
    ActiveForActionMembers(runs, action, best);
    forall other | other in runs && other.actionKey == Some(action) && IsActive(other)
      ensures HeadEvidence(other, head) <= HeadEvidence(best, head)
    {
      ActiveForActionMembers(runs, action, other);
      assert KeyAtMost(StatusKey(other, head), StatusKey(best, head));
      assert AtMost([HeadEvidence(other, head)], [HeadEvidence(best, head)]);
    }
  }

  // On the same runs and heads: a status that says to wait or to inspect implies the guard
  // reports an existing run, a guard that proceeds implies the status is missing, blocked
  // or unknown, and the status never hits its assertion.
  lemma StatusAndStartAgree(runs: seq<AuditRun>, action: string, rerun: Rerun)
    ensures var status := StatusOf(runs, action, rerun);
            && (status.HeadActive? || status.HeadUnverified? ==> Guard(runs, action, rerun.head) != [])
            && (Proceeds(action, rerun, runs) ==> status.HeadMissing? || status.HeadBlocked? || status.HeadUnknown?)
            && status != HeadImpossible
  {
    hide RepresentativeBy, StatusKey;
    var run := StatusRun(runs, action, rerun.head);
    if run.Some? {
      StatusRunIsBest(runs, action, rerun.head);
      GuardMembers(runs, action, rerun.head, run.value);
    }
  }

  // The run a status is about is the strongest of those with the best evidence of the head.
  lemma StatusRunIsStrongest(runs: seq<AuditRun>, action: string, head: Option<string>, other: AuditRun)
    requires StatusRun(runs, action, head).Some?
    requires other in runs && other.actionKey == Some(action) && IsActive(other)
    requires HeadEvidence(other, head) == HeadEvidence(StatusRun(runs, action, head).value, head)
    ensures KeyAtMost(KeyFor(other), KeyFor(StatusRun(runs, action, head).value))
  {
    hide KeyFor, HeadEvidence, RepresentativeBy, IsActive;
    var active := ActiveForAction(runs, action);
    var key := (run: AuditRun) => StatusKey(run, head);
    var best := RepresentativeBy(active, key);
    RepresentativeIsMaximal(active, key);
    ActiveForActionMembers(runs, action, other);
    assert StatusKey(other, head)[1..] == KeyFor(other) && StatusKey(best, head)[1..] == KeyFor(best);
  }

  // The status of each audit, over the runs and the heads: ready, or unknown for want of a
  // head, whatever runs there are; otherwise about a run on the current head if one is under
  // way, else about one on another head, else about one of unknown head.
  lemma StatusIsExact(runs: seq<AuditRun>, action: string, rerun: Rerun)
    ensures var status, head := StatusOf(runs, action, rerun), rerun.head;
            var known := head.Some? && action in rerun.audited;
            var stale := known && rerun.audited[action] != head.value;
            var onHead := exists run <- runs :: UnderWay(run, action) && run.currentHead == head;
            var elsewhere := exists run <- runs :: UnderWay(run, action) && run.currentHead.Some?;
            var any := exists run <- runs :: UnderWay(run, action);
            && (status.HeadReady? <==> known && !stale)
            && (status.HeadUnknown? <==> !known)
            && (status.HeadMissing? <==> stale && !any)
            && (status.HeadActive? <==> stale && onHead)
            && (status.HeadBlocked? <==> stale && !onHead && elsewhere)
            && (status.HeadUnverified? <==> stale && any && !elsewhere)
  {
    hide RepresentativeBy, StatusKey, IsTerminalStatus, IsActive, ActiveForAction;
    forall run
      ensures run in ActiveForAction(runs, action) <==> run in runs && UnderWay(run, action)
      ensures UnderWay(run, action) <==> run.actionKey == Some(action) && IsActive(run)
    {
      ActiveForActionMembers(runs, action, run);
      ActiveMeansNotEnded(run);
    }
    var head := rerun.head;
    var chosen := StatusRun(runs, action, head);
    if chosen.Some? {
      StatusRunIsBest(runs, action, head);
      ActiveForActionMembers(runs, action, chosen.value);
      StatusAndStartAgree(runs, action, rerun);
    }
  }

  // A status names the task, and the lifecycle, of a run of its kind that no other run of
  // that kind outranks.
  lemma StatusNamesItsRun(runs: seq<AuditRun>, action: string, rerun: Rerun)
    ensures var status, head := StatusOf(runs, action, rerun), rerun.head;
            status.HeadBlocked? || status.HeadUnverified? || status.HeadActive? ==>
              exists run <- runs ::
                && UnderWay(run, action)
                && (status.HeadActive? ==>
                      run.currentHead == head && status.taskId == run.taskId && status.lifecycle == RunLifecycle(run))
                && (status.HeadBlocked? ==> run.currentHead.Some? && status.staleTask == run.taskId)
                && (status.HeadUnverified? ==> run.currentHead.None? && status.taskId == run.taskId)
                && forall other <- runs ::
                     UnderWay(other, action)
                     && (other.currentHead == run.currentHead || (status.HeadBlocked? && other.currentHead.Some?)) ==>
                       KeyAtMost(KeyFor(other), KeyFor(run))
  {
    hide RepresentativeBy, StatusKey, IsTerminalStatus, KeyFor, RunLifecycle;
    var status, head := StatusOf(runs, action, rerun), rerun.head;
    if status.HeadBlocked? || status.HeadUnverified? || status.HeadActive? {
      var run := StatusRun(runs, action, head).value;
      StatusRunIsBest(runs, action, head);
      ActiveMeansNotEnded(run);
      forall other | other in runs && UnderWay(other, action)
                     && (other.currentHead == run.currentHead || (status.HeadBlocked? && other.currentHead.Some?))
        ensures KeyAtMost(KeyFor(other), KeyFor(run))
      {
        ActiveMeansNotEnded(other);
        if HeadEvidence(other, head) == HeadEvidence(run, head) {
          StatusRunIsStrongest(runs, action, head, other);
        }
      }
    }
  }

  predicate ActiveOn(runs: seq<AuditRun>, action: string, test: AuditRun -> bool) {
    exists run <- runs :: run.actionKey == Some(action) && IsActive(run) && test(run)
  }

  // The one disagreement: the status says blocked, so start, while the guard says a run
  // exists, exactly when no active run is on the current head, some carry no head at all
  // and some carry another.
  lemma StatusAndStartDisagreeExactly(runs: seq<AuditRun>, action: string, rerun: Rerun)
    ensures var outOfDate := OutOfDate(rerun.head, AuditedHead(rerun, action)) == Some(true);
            (StatusOf(runs, action, rerun).HeadBlocked? || StatusOf(runs, action, rerun).HeadMissing?)
            && Guard(runs, action, rerun.head) != []
            <==> outOfDate
                 && !ActiveOn(runs, action, (run: AuditRun) => run.currentHead == rerun.head)
                 && ActiveOn(runs, action, (run: AuditRun) => run.currentHead.None?)
                 && ActiveOn(runs, action, (run: AuditRun) => run.currentHead.Some? && run.currentHead != rerun.head)
  {
    hide RepresentativeBy, StatusKey, Guard, Lifecycle.IsActive;
    var head := rerun.head;
    var guard := Guard(runs, action, head);
    var status := StatusRun(runs, action, head);
    if status.Some? {
      StatusRunIsBest(runs, action, head);
    } else {
      forall run | run in runs && run.actionKey == Some(action) ensures !IsActive(run) {
        ActiveForActionMembers(runs, action, run);
      }
    }
    if guard != [] {
      GuardMembers(runs, action, head, guard[0]);
    }
    forall run | run in runs && run.actionKey == Some(action) && IsActive(run) && run.currentHead.None?
      ensures guard != []
    {
      GuardMembers(runs, action, head, run);
    }
  }
}
