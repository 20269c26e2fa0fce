// The started-run ledger (audit/ledger.py): entries that guard against starting a run
// twice while the upstream projections catch up. Every public operation is one locked
// transaction, except that reconcile looks tasks up with no lock held.
module Ledger {
  import opened Wrappers
  import opened Lifecycle

  datatype Moment = Moment(text: string, at: int)

  datatype Entry = Entry(
    repoId: string,
    projectId: string,
    auditKey: string,
    taskId: Option<string>,
    taskStatus: Option<string>,
    currentHead: Option<string>,
    auditedHead: Option<string>,
    observed: Moment,
    startedAt: Option<Stamp>,
    expires: Moment)

  datatype TaskDetail = TaskDetail(
    taskId: string,
    status: Option<string>,
    createdAt: Option<Stamp>,
    startedAt: Option<Stamp>,
    completedAt: Option<Stamp>)

  // What task-by-id answered; Unavailable is an upstream or malformed-response error.
  datatype Lookup = Found(detail: TaskDetail) | NotFound | Unavailable

  predicate Expired(e: Entry, now: int) {
    e.expires.at <= now
  }

  predicate SameIdentity(a: Entry, b: Entry) {
    a.repoId == b.repoId && a.auditKey == b.auditKey && a.taskId == b.taskId
  }

  predicate FreshFor(e: Entry, head: Option<string>, audited: map<string, string>) {
    var auditedHead := if audited != map[] then (if e.auditKey in audited then Some(audited[e.auditKey]) else None)
                       else e.auditedHead;
    head.Some? && auditedHead.Some? && head == auditedHead
  }

  // Python's `or` on optional text: an empty text counts as missing.
  function TextOr(a: Option<string>, b: Option<string>): Option<string> {
    if a.Some? && a.value != "" then a else b
  }

  function StampOr(a: Option<Stamp>, b: Option<Stamp>): Option<Stamp> {
    if a.Some? && a.value.text != "" then a else b
  }

  function Projected(e: Entry, detail: Option<TaskDetail>): AuditRun {
    var d := if detail.Some? then detail.value else TaskDetail("", None, None, None, None);
    AuditRun(
      TextOr(Some(d.taskId), e.taskId),
      Some(e.auditKey),
      TextOr(d.status, e.taskStatus),
      StampOr(d.createdAt, Some(Stamp(e.observed.text, Some(e.observed.at)))),
      StampOr(d.startedAt, e.startedAt),
      d.completedAt,
      Some("local_started_task_ledger"),
      Some(if detail.Some? then "task_by_id" else "ledger"),
      Some(e.expires.text),
      e.currentHead,
      e.auditedHead)
  }

  // ------------------------------------------------------------------- one commit

  // Everything a reconciliation commit decides by.
  datatype Commit = Commit(
    repoId: string,
    upstream: seq<AuditRun>,
    cache: map<string, Lookup>,
    now: int,
    grace: int)

  datatype EntryOutcome = EntryOutcome(retained: bool, suppress: Option<string>, projected: Option<AuditRun>)

  predicate Live(e: Entry, now: int) {
    !Expired(e, now) && !IsTerminalStatus(e.taskStatus)
  }

  // _reconcile_entry
  function ReconcileEntry(e: Entry, c: Commit): EntryOutcome {
    if e.taskId.None? then
      EntryOutcome(true, None, if ActiveForAction(c.upstream, e.auditKey) != [] then None else Some(Projected(e, None)))
    else if e.taskId.value !in c.cache then EntryOutcome(true, e.taskId, Some(Projected(e, None)))
    else match c.cache[e.taskId.value]
      case NotFound =>
        if c.now - e.observed.at > c.grace then EntryOutcome(false, None, None)
        else EntryOutcome(true, e.taskId, Some(Projected(e, None)))
      case Unavailable => EntryOutcome(true, e.taskId, Some(Projected(e, None)))
      case Found(detail) =>
        var run := Projected(e, Some(detail));
        if IsActive(run) then EntryOutcome(true, e.taskId, Some(run)) else EntryOutcome(false, e.taskId, None)
  }

  function OutcomeFor(e: Entry, c: Commit): EntryOutcome {
    if e.repoId != c.repoId then EntryOutcome(true, None, None)
    else if !Live(e, c.now) then EntryOutcome(false, None, None)
    else ReconcileEntry(e, c)
  }

  // The entries a test keeps, in order.
  function Filtered(entries: seq<Entry>, keep: Entry -> bool): seq<Entry> {
    if entries == [] then []
    else Filtered(entries[..|entries| - 1], keep)
         + (if keep(entries[|entries| - 1]) then [entries[|entries| - 1]] else [])
  }

  lemma {:induction false} FilteredMembers(entries: seq<Entry>, keep: Entry -> bool, e: Entry)
    ensures e in Filtered(entries, keep) <==> e in entries && keep(e)
    ensures |Filtered(entries, keep)| <= |entries|
  {
    if entries != [] {
      var n := |entries| - 1;
      FilteredMembers(entries[..n], keep, e);
      assert entries == entries[..n] + [entries[n]];
    }
  }

  // What is kept keeps its order.
  lemma {:induction false} FilteredKeepsOrder(entries: seq<Entry>, keep: Entry -> bool, i: nat, j: nat)
    returns (p: nat, q: nat)
    requires i < j < |Filtered(entries, keep)|
    ensures p < q < |entries| && entries[p] == Filtered(entries, keep)[i] && entries[q] == Filtered(entries, keep)[j]
  {
    var n := |entries| - 1;
    var head := Filtered(entries[..n], keep);
    if j < |head| {
      p, q := FilteredKeepsOrder(entries[..n], keep, i, j);
    } else {
      FilteredMembers(entries[..n], keep, head[i]);
      q := n;
      p :| p < n && entries[..n][p] == head[i];
    }
  }

  lemma {:induction false} FilteredIsAll(entries: seq<Entry>, keep: Entry -> bool)
    ensures Filtered(entries, keep) == entries <==> forall e <- entries :: keep(e)
  {
    if entries != [] {
      var n := |entries| - 1;
      FilteredIsAll(entries[..n], keep);
      FilteredMembers(entries[..n], keep, entries[n]);
      assert entries == entries[..n] + [entries[n]];
    }
  }

  lemma FilterStep(entries: seq<Entry>, i: nat, keep: Entry -> bool)
    requires i < |entries|
    ensures Filtered(entries[..i + 1], keep) == Filtered(entries[..i], keep) + (if keep(entries[i]) then [entries[i]]
                                                                                else [])
  {
    assert entries[..i + 1][..i] == entries[..i] && entries[..i + 1][i] == entries[i];
  }

  function KeptEntries(entries: seq<Entry>, c: Commit): seq<Entry> {
    Filtered(entries, e => OutcomeFor(e, c).retained)
  }

  function ProjectedRuns(entries: seq<Entry>, c: Commit): seq<AuditRun> {
    if entries == [] then []
    else
      var n := |entries| - 1;
      var projected := OutcomeFor(entries[n], c).projected;
      ProjectedRuns(entries[..n], c) + (if projected.Some? then [projected.value] else [])
  }

  function SuppressedIds(entries: seq<Entry>, c: Commit): set<string> {
    set e <- entries | OutcomeFor(e, c).suppress.Some? :: OutcomeFor(e, c).suppress.value
  }

  predicate Unsuppressed(run: AuditRun, suppressed: set<string>) {
    run.taskId.None? || run.taskId.value !in suppressed
  }

  function UnsuppressedRuns(runs: seq<AuditRun>, suppressed: set<string>): seq<AuditRun> {
    if runs == [] then []
    else (if Unsuppressed(runs[0], suppressed) then [runs[0]] else []) + UnsuppressedRuns(runs[1..], suppressed)
  }

  lemma KeptMembers(entries: seq<Entry>, c: Commit, e: Entry)
    ensures e in KeptEntries(entries, c) <==> e in entries && OutcomeFor(e, c).retained
  {
    FilteredMembers(entries, e => OutcomeFor(e, c).retained, e);
  }

  lemma {:induction false} ProjectedMembers(entries: seq<Entry>, c: Commit, run: AuditRun)
    ensures run in ProjectedRuns(entries, c) <==> exists e <- entries :: OutcomeFor(e, c).projected == Some(run)
  {
    hide OutcomeFor;
    if entries != [] {
      var n := |entries| - 1;
      ProjectedMembers(entries[..n], c, run);
      assert entries == entries[..n] + [entries[n]];
      assert entries[n] in entries;
      assert (exists e <- entries :: OutcomeFor(e, c).projected == Some(run)) <==>
             (exists e <- entries[..n] :: OutcomeFor(e, c).projected == Some(run))
             || OutcomeFor(entries[n], c).projected == Some(run);
    }
  }

  lemma {:induction false} UnsuppressedMembers(runs: seq<AuditRun>, suppressed: set<string>, run: AuditRun)
    ensures run in UnsuppressedRuns(runs, suppressed) <==> run in runs && Unsuppressed(run, suppressed)
  {
    if runs != [] {
      UnsuppressedMembers(runs[1..], suppressed, run);
    }
  }

  // A commit drops an entry exactly when it expired, was recorded terminal, or a lookup of
  // its own task id said it ended or stayed missing past the grace period; another
  // repository's entries are never touched.
  lemma CommitDropsExactly(entries: seq<Entry>, c: Commit, e: Entry)
    requires e in entries
    ensures e !in KeptEntries(entries, c) <==>
            && e.repoId == c.repoId
            && (e.expires.at <= c.now || IsTerminalStatus(e.taskStatus)
                || (e.taskId.Some? && e.taskId.value in c.cache && Ended(e, c)))
  {
    KeptMembers(entries, c, e);
    if e.taskId.Some? && e.taskId.value in c.cache && c.cache[e.taskId.value].Found? {
      ActiveMeansNotEnded(Projected(e, Some(c.cache[e.taskId.value].detail)));
    }
  }

  // The status in force: what the lookup says, or what was recorded if it says nothing.
  function StatusInForce(e: Entry, detail: TaskDetail): Option<string> {
    if detail.status.None? || detail.status.value == "" then e.taskStatus else detail.status
  }

  // The task's own lookup has a completion time or a terminal status in force, or the task
  // stayed missing past the grace period.
  predicate Ended(e: Entry, c: Commit)
    requires e.taskId.Some? && e.taskId.value in c.cache
  {
    match c.cache[e.taskId.value]
    case Found(detail) => detail.completedAt.Some? || IsTerminalStatus(StatusInForce(e, detail))
    case NotFound => c.now - e.observed.at > c.grace
    case Unavailable => false
  }

  // An entry a commit leaves to be decided: of its repository, not expired, not over.
  predicate Undecided(e: Entry, c: Commit) {
    e.repoId == c.repoId && c.now < e.expires.at && !IsTerminalStatus(e.taskStatus)
  }

  // What was recorded of a run, in every projection of it.
  predicate CarriesEntry(run: AuditRun, e: Entry) {
    && run.actionKey == Some(e.auditKey) && run.currentHead == e.currentHead && run.lastAuditedHead == e.auditedHead
    && run.expiresAt == Some(e.expires.text) && run.projectionSource == Some("local_started_task_ledger")
  }

  // With an answer from task-by-id the run carries what it says, and what was recorded only
  // where it says nothing; and it is projected exactly while that leaves it active.
  lemma LookedUpRunIsExact(e: Entry, c: Commit, detail: TaskDetail)
    requires Undecided(e, c) && e.taskId.Some? && e.taskId.value in c.cache
    requires c.cache[e.taskId.value] == Found(detail)
    ensures var outcome := OutcomeFor(e, c);
            var over := detail.completedAt.Some? || IsTerminalStatus(StatusInForce(e, detail));
            && outcome.suppress == e.taskId && outcome.retained == !over && outcome.projected.Some? == !over
            && (!over ==>
                  var run := outcome.projected.value;
                  && CarriesEntry(run, e) && run.projectionStatusSource == Some("task_by_id")
                  && run.taskId == (if detail.taskId == "" then e.taskId else Some(detail.taskId))
                  && run.status == StatusInForce(e, detail) && run.completedAt == detail.completedAt
                  && (detail.startedAt.Some? && detail.startedAt.value.text != "" ==> run.startedAt == detail.startedAt)
                  && (detail.startedAt.None? || detail.startedAt.value.text == "" ==> run.startedAt == e.startedAt)
                  && (detail.createdAt.Some? && detail.createdAt.value.text != "" ==> run.createdAt == detail.createdAt)
                  && (detail.createdAt.None? || detail.createdAt.value.text == "" ==>
                        run.createdAt == Some(Stamp(e.observed.text, Some(e.observed.at)))))
  {
    ActiveMeansNotEnded(Projected(e, Some(detail)));
  }

  // Without an answer the recorded run stands in: always for a task id not looked up, not
  // available, or missing within the grace period; past it the entry goes, and no upstream
  // row of the task is held back.
  lemma RecordedRunStandsIn(e: Entry, c: Commit)
    requires Undecided(e, c) && e.taskId.Some?
    requires e.taskId.value in c.cache ==> !c.cache[e.taskId.value].Found?
    ensures var outcome := OutcomeFor(e, c);
            var id := e.taskId.value;
            var gone := id in c.cache && c.cache[id].NotFound? && c.now - e.observed.at > c.grace;
            && outcome.retained == !gone && outcome.suppress == (if gone then None else e.taskId)
            && (outcome.projected.None? <==> gone)
            && (!gone ==>
                  var run := outcome.projected.value;
                  && CarriesEntry(run, e) && run.projectionStatusSource == Some("ledger")
                  && (e.taskId.value != "" ==> run.taskId == e.taskId) && run.status == e.taskStatus
                  && run.startedAt == e.startedAt && run.completedAt.None?
                  && run.createdAt == Some(Stamp(e.observed.text, Some(e.observed.at))))
  {
  }

  // An entry recorded without a task id is kept until it expires, holds nothing back, and
  // speaks only while active-runs shows no run of its action.
  lemma UnidentifiedRunStandsIn(e: Entry, c: Commit)
    requires Undecided(e, c) && e.taskId.None?
    ensures var outcome := OutcomeFor(e, c);
            && outcome.retained && outcome.suppress.None?
            && (outcome.projected.Some? <==>
                  forall run <- c.upstream :: run.actionKey == Some(e.auditKey) ==>
                    run.completedAt.Some? || IsTerminalStatus(run.status))
            && (outcome.projected.Some? ==>
                  CarriesEntry(outcome.projected.value, e) && outcome.projected.value.status == e.taskStatus)
  {
    hide Projected, Lifecycle.IsActive;
    forall run | run in c.upstream ensures run in ActiveForAction(c.upstream, e.auditKey) <==>
      run.actionKey == Some(e.auditKey) && !(run.completedAt.Some? || IsTerminalStatus(run.status))
    {
      ActiveForActionMembers(c.upstream, e.auditKey, run);
      ActiveMeansNotEnded(run);
    }
    var active := ActiveForAction(c.upstream, e.auditKey);
    if active != [] { ActiveForActionMembers(c.upstream, e.auditKey, active[0]); }
    assert CarriesEntry(Projected(e, None), e) && Projected(e, None).status == e.taskStatus by { RecordedFields(e); }
  }

  lemma RecordedFields(e: Entry)
    ensures CarriesEntry(Projected(e, None), e) && Projected(e, None).status == e.taskStatus
  {
  }

  // Nothing else is projected or held back.
  lemma DecidedIsSilent(e: Entry, c: Commit)
    requires !Undecided(e, c)
    ensures OutcomeFor(e, c) == EntryOutcome(e.repoId != c.repoId, None, None)
  {
  }

  // ------------------------------------------------------------------ deduplication

  datatype Identity = ByTask(taskId: string) | ByAction(actionKey: Option<string>)

  function IdentityOf(run: AuditRun): Identity {
    if run.taskId.Some? then ByTask(run.taskId.value) else ByAction(run.actionKey)
  }

  function Group(runs: seq<AuditRun>, id: Identity): seq<AuditRun> {
    if runs == [] then []
    else Group(runs[..|runs| - 1], id) + (if IdentityOf(runs[|runs| - 1]) == id then [runs[|runs| - 1]] else [])
  }

  // Identities in order of first appearance.
  function Identities(runs: seq<AuditRun>): seq<Identity> {
    if runs == [] then []
    else
      var ids, id := Identities(runs[..|runs| - 1]), IdentityOf(runs[|runs| - 1]);
      if id in ids then ids else ids + [id]
  }

  lemma {:induction false} GroupMembers(runs: seq<AuditRun>, id: Identity)
    ensures forall run :: run in Group(runs, id) <==> run in runs && IdentityOf(run) == id
    ensures id in Identities(runs) <==> Group(runs, id) != []
  {
    if runs != [] {
      var n := |runs| - 1;
      GroupMembers(runs[..n], id);
      assert runs == runs[..n] + [runs[n]];
    }
  }

  lemma {:induction false} IdentitiesAreDistinct(runs: seq<AuditRun>)
    ensures forall i, j :: 0 <= i < j < |Identities(runs)| ==> Identities(runs)[i] != Identities(runs)[j]
  {
    if runs != [] {
      IdentitiesAreDistinct(runs[..|runs| - 1]);
    }
  }

  // Identities come in the order in which they first appear.
  lemma {:induction false} IdentitiesKeepOrder(runs: seq<AuditRun>, i: nat, j: nat) returns (first: nat)
    requires i < j < |Identities(runs)|
    ensures first < |runs| && IdentityOf(runs[first]) == Identities(runs)[i]
    ensures forall k :: 0 <= k <= first ==> IdentityOf(runs[k]) != Identities(runs)[j]
  {
    hide IdentityOf;
    var n := |runs| - 1;
    var before := Identities(runs[..n]);
    if j < |before| {
      first := IdentitiesKeepOrder(runs[..n], i, j);
      assert forall k :: 0 <= k < n ==> runs[..n][k] == runs[k];
    } else {
      GroupMembers(runs[..n], before[i]);
      GroupMembers(runs[..n], IdentityOf(runs[n]));
      var run := Group(runs[..n], before[i])[0];
      assert run in runs[..n];
      first :| first < n && runs[..n][first] == run;
      forall k | 0 <= k <= first ensures IdentityOf(runs[k]) != Identities(runs)[j] {
        assert runs[..n][k] == runs[k] && runs[..n][k] in runs[..n];
      }
    }
  }

  function ChosenFor(runs: seq<AuditRun>, id: Identity): seq<AuditRun> {
    var group := Group(runs, id);
    if group == [] then [] else [Representative(group)]
  }

  function Chosen(runs: seq<AuditRun>, ids: seq<Identity>): seq<AuditRun> {
    if ids == [] then [] else Chosen(runs, ids[..|ids| - 1]) + ChosenFor(runs, ids[|ids| - 1])
  }

  // The representative of each identity, in order of first appearance.
  function Deduped(runs: seq<AuditRun>): seq<AuditRun> {
    Chosen(runs, Identities(runs))
  }

  lemma OneIsChosen(runs: seq<AuditRun>, id: Identity)
    requires Group(runs, id) != []
    ensures |ChosenFor(runs, id)| == 1
  {
  }

  lemma {:induction false} ChosenShape(runs: seq<AuditRun>, ids: seq<Identity>)
    requires forall id <- ids :: Group(runs, id) != []
    ensures |Chosen(runs, ids)| == |ids|
    ensures forall i :: 0 <= i < |ids| ==> ChosenFor(runs, ids[i]) == [Chosen(runs, ids)[i]]
  {
    hide Group, ChosenFor;
    if ids != [] {
      var n := |ids| - 1;
      var head, last := Chosen(runs, ids[..n]), ChosenFor(runs, ids[n]);
      ChosenShape(runs, ids[..n]);
      OneIsChosen(runs, ids[n]);
      assert Chosen(runs, ids) == head + last;
      forall i | 0 <= i < |ids| ensures ChosenFor(runs, ids[i]) == [Chosen(runs, ids)[i]] {
        if i < n {
          assert ids[..n][i] == ids[i];
        }
      }
    }
  }

  lemma DedupedShape(runs: seq<AuditRun>, i: nat)
    requires i < |Identities(runs)|
    ensures |Deduped(runs)| == |Identities(runs)| && Group(runs, Identities(runs)[i]) != []
    ensures Deduped(runs)[i] == Representative(Group(runs, Identities(runs)[i]))
  {
    hide Group, Identities, Representative;
    forall id | id in Identities(runs) ensures Group(runs, id) != [] {
      GroupMembers(runs, id);
    }
    ChosenShape(runs, Identities(runs));
    assert ChosenFor(runs, Identities(runs)[i]) == [Deduped(runs)[i]];
  }

  lemma DedupedLength(runs: seq<AuditRun>)
    ensures |Deduped(runs)| == |Identities(runs)|
  {
    if Identities(runs) != [] {
      DedupedShape(runs, 0);
    }
  }

  lemma GroupStep(runs: seq<AuditRun>, i: nat, id: Identity)
    requires i < |runs|
    ensures Group(runs[..i + 1], id) == Group(runs[..i], id) + (if IdentityOf(runs[i]) == id then [runs[i]] else [])
    ensures Identities(runs[..i + 1]) ==
            Identities(runs[..i]) + (if IdentityOf(runs[i]) in Identities(runs[..i]) then [] else [IdentityOf(runs[i])])
    ensures id in Identities(runs[..i]) <==> Group(runs[..i], id) != []
  {
    assert runs[..i + 1][..i] == runs[..i] && runs[..i + 1][i] == runs[i];
    GroupMembers(runs[..i], id);
  }

  // _dedupe_runs
  method DedupeRuns(runs: seq<AuditRun>) returns (result: seq<AuditRun>)
    ensures result == Deduped(runs)
  {
    hide Representative, IdentityOf, Group, Identities;
    var order: seq<Identity> := [];
    var grouped: map<Identity, seq<AuditRun>> := map[];
    assert runs[..0] == [];
    NoGroups();
    for i := 0 to |runs|
      invariant order == Identities(runs[..i])
      invariant forall id :: id in grouped <==> id in order
      invariant forall id <- grouped :: grouped[id] == Group(runs[..i], id)
    {
      var identity := IdentityOf(runs[i]);
      ghost var before := grouped;
      if identity !in grouped {
        order := order + [identity];
        grouped := grouped[identity := [runs[i]]];
      } else {
        grouped := grouped[identity := grouped[identity] + [runs[i]]];
      }
      GroupStep(runs, i, identity);
      forall id | id in grouped ensures grouped[id] == Group(runs[..i + 1], id) {
        GroupStep(runs, i, id);
      }
    }
    assert runs[..|runs|] == runs;
    result := [];
    for i := 0 to |order|
      invariant result == Chosen(runs, order[..i])
    {
      GroupMembers(runs, order[i]);
      assert order[..i + 1][..i] == order[..i] && order[..i + 1][i] == order[i];
      result := result + [Representative(grouped[order[i]])];
    }
    assert order[..|order|] == order;
  }

  lemma NoGroups()
    ensures Identities([]) == []
  {
  }

  // Exactly one run per identity, and none larger was passed over.
  lemma DedupedIsDeterministic(runs: seq<AuditRun>)
    ensures var result := Deduped(runs);
            && |result| == |Identities(runs)|
            && (forall i :: 0 <= i < |result| ==> result[i] in runs && IdentityOf(result[i]) == Identities(runs)[i])
            && (forall i, j :: 0 <= i < j < |result| ==> IdentityOf(result[i]) != IdentityOf(result[j]))
            && (forall run <- runs :: exists chosen <- result ::
                  IdentityOf(chosen) == IdentityOf(run) && KeyAtMost(KeyFor(run), KeyFor(chosen)))
  {
    hide IdentityOf, KeyFor, Deduped, Identities, Group;
    var result := Deduped(runs);
    DedupedLength(runs);
    forall i | 0 <= i < |result|
      ensures result[i] in runs && IdentityOf(result[i]) == Identities(runs)[i]
      ensures forall run <- Group(runs, Identities(runs)[i]) :: KeyAtMost(KeyFor(run), KeyFor(result[i]))
    {
      DedupedShape(runs, i);
      GroupMembers(runs, Identities(runs)[i]);
      RepresentativeIsMaximal(Group(runs, Identities(runs)[i]), KeyFor);
    }
    IdentitiesAreDistinct(runs);
    forall run | run in runs
      ensures exists chosen <- result :: IdentityOf(chosen) == IdentityOf(run) && KeyAtMost(KeyFor(run), KeyFor(chosen))
    {
      var id := IdentityOf(run);
      GroupMembers(runs, id);
      var i :| 0 <= i < |Identities(runs)| && Identities(runs)[i] == id;
      assert result[i] in result;
    }
  }

  lemma DedupedHas(runs: seq<AuditRun>, run: AuditRun) returns (chosen: AuditRun)
    requires run in runs
    ensures chosen in Deduped(runs) && chosen in runs && IdentityOf(chosen) == IdentityOf(run)
  {
    hide IdentityOf, Deduped, Identities, Group, Representative;
    GroupMembers(runs, IdentityOf(run));
    var i :| 0 <= i < |Identities(runs)| && Identities(runs)[i] == IdentityOf(run);
    DedupedShape(runs, i);
    RepresentativeIsIn(Group(runs, IdentityOf(run)));
    chosen := Deduped(runs)[i];
  }

  lemma RepresentativeIsIn(runs: seq<AuditRun>)
    requires runs != []
    ensures Representative(runs) in runs
  {
    RepresentativeIsMaximal(runs, KeyFor);
  }

  function Keys(runs: seq<AuditRun>): set<SortKey> {
    set run <- runs :: KeyFor(run)
  }

  ghost predicate SameRows(a: seq<AuditRun>, b: seq<AuditRun>) {
    forall run :: run in a <==> run in b
  }

  // Permuting the rows leaves the set of chosen sort keys unchanged.
  lemma DedupedKeysAreOrderFree(a: seq<AuditRun>, b: seq<AuditRun>)
    requires SameRows(a, b)
    ensures Keys(Deduped(a)) == Keys(Deduped(b))
  {
    DedupedKeysAreIncluded(a, b);
    DedupedKeysAreIncluded(b, a);
  }

  lemma DedupedKeysAreIncluded(a: seq<AuditRun>, b: seq<AuditRun>)
    requires SameRows(a, b)
    ensures Keys(Deduped(a)) <= Keys(Deduped(b))
  {
    hide IdentityOf, KeyFor, Group, Identities, RepresentativeBy, Deduped;
    DedupedLength(a);
    DedupedLength(b);
    forall key | key in Keys(Deduped(a)) ensures key in Keys(Deduped(b)) {
      var i :| 0 <= i < |Deduped(a)| && KeyFor(Deduped(a)[i]) == key;
      var id := Identities(a)[i];
      DedupedShape(a, i);
      GroupMembers(a, id);
      GroupMembers(b, id);
      assert Group(a, id)[0] in Group(b, id);
      var j :| 0 <= j < |Identities(b)| && Identities(b)[j] == id;
      DedupedShape(b, j);
      RepresentativeKeyIsOrderFree(Group(a, id), Group(b, id), KeyFor);
      assert Deduped(b)[j] in Deduped(b);
    }
  }

  // What reconcile answers for the entries its commit read.
  function ReconciledRuns(entries: seq<Entry>, c: Commit): seq<AuditRun> {
    Deduped(ProjectedRuns(entries, c) + UnsuppressedRuns(c.upstream, SuppressedIds(entries, c)))
  }

  lemma AnsweredRunIsInPool(entries: seq<Entry>, c: Commit, run: AuditRun)
    requires run in ReconciledRuns(entries, c)
    ensures run in ProjectedRuns(entries, c) || run in UnsuppressedRuns(c.upstream, SuppressedIds(entries, c))
  {
    hide ProjectedRuns, UnsuppressedRuns, Deduped, SuppressedIds, Identities, KeyFor, IdentityOf;
    DedupedIsDeterministic(ProjectedRuns(entries, c) + UnsuppressedRuns(c.upstream, SuppressedIds(entries, c)));
  }

  // The entry speaks for its task, so no upstream row of the task is answered as it is.
  predicate Claims(e: Entry, c: Commit, id: string) {
    && e.taskId == Some(id) && e.repoId == c.repoId && c.now < e.expires.at && !IsTerminalStatus(e.taskStatus)
    && !(id in c.cache && c.cache[id].NotFound? && c.now - e.observed.at > c.grace)
  }

  lemma SuppressionIsExact(entries: seq<Entry>, c: Commit, id: string)
    ensures id in SuppressedIds(entries, c) <==> exists e <- entries :: Claims(e, c, id)
  {
    hide Projected, IsTerminalStatus, IsActive;
    forall e | e in entries ensures OutcomeFor(e, c).suppress == Some(id) <==> Claims(e, c, id) {
    }
    if exists e <- entries :: Claims(e, c, id) {
      var e :| e in entries && Claims(e, c, id);
      assert OutcomeFor(e, c).suppress == Some(id);
    }
  }

  // What reconcile may answer: the projection of an entry, or an upstream row whose task no
  // entry speaks for.
  predicate MayBeAnswered(entries: seq<Entry>, c: Commit, run: AuditRun) {
    || (exists e <- entries :: OutcomeFor(e, c).projected == Some(run))
    || (run in c.upstream && (run.taskId.Some? ==> !exists e <- entries :: Claims(e, c, run.taskId.value)))
  }

  lemma PoolIsExact(entries: seq<Entry>, c: Commit, run: AuditRun)
    ensures run in ProjectedRuns(entries, c) + UnsuppressedRuns(c.upstream, SuppressedIds(entries, c)) <==>
            MayBeAnswered(entries, c, run)
  {
    hide OutcomeFor, ProjectedRuns, UnsuppressedRuns, SuppressedIds, Claims;
    ProjectedMembers(entries, c, run);
    UnsuppressedMembers(c.upstream, SuppressedIds(entries, c), run);
    if run.taskId.Some? { SuppressionIsExact(entries, c, run.taskId.value); }
  }

  // The same task, or without a task id the same action.
  predicate SameSubject(a: AuditRun, b: AuditRun) {
    a.taskId == b.taskId && (a.taskId.None? ==> a.actionKey == b.actionKey)
  }

  lemma OneAnswerPerIdentity(pool: seq<AuditRun>, a: AuditRun, b: AuditRun)
    requires a in Deduped(pool) && b in Deduped(pool) && IdentityOf(a) == IdentityOf(b)
    ensures a == b
  {
    hide Deduped, Identities, KeyFor, KeyAtMost, IdentityOf;
    DedupedIsDeterministic(pool);
    var i :| 0 <= i < |Deduped(pool)| && Deduped(pool)[i] == a;
    var j :| 0 <= j < |Deduped(pool)| && Deduped(pool)[j] == b;
    assert i == j;
  }

  lemma DedupedSource(pool: seq<AuditRun>, run: AuditRun)
    ensures run in Deduped(pool) ==> run in pool
    ensures run in pool ==>
              exists chosen <- Deduped(pool) ::
                IdentityOf(chosen) == IdentityOf(run) && KeyAtMost(KeyFor(run), KeyFor(chosen))
  {
    hide Deduped, Identities, KeyFor, KeyAtMost, IdentityOf;
    DedupedIsDeterministic(pool);
  }

  lemma SubjectIsIdentity(a: AuditRun, b: AuditRun)
    ensures SameSubject(a, b) <==> IdentityOf(a) == IdentityOf(b)
  {
  }

  lemma DedupedSubjects(pool: seq<AuditRun>, run: AuditRun)
    ensures run in Deduped(pool) ==> run in pool
    ensures run in pool ==>
              exists chosen <- Deduped(pool) :: SameSubject(chosen, run) && KeyAtMost(KeyFor(run), KeyFor(chosen))
    ensures run in Deduped(pool) ==> forall other <- Deduped(pool) :: SameSubject(run, other) ==> run == other
  {
    hide Deduped, KeyFor, KeyAtMost, IdentityOf, SameSubject;
    DedupedSource(pool, run);
    forall other ensures SameSubject(other, run) <==> IdentityOf(other) == IdentityOf(run) {
      SubjectIsIdentity(other, run);
    }
    if run in Deduped(pool) {
      forall other | other in Deduped(pool) && SameSubject(run, other) ensures run == other {
        SubjectIsIdentity(run, other);
        OneAnswerPerIdentity(pool, run, other);
      }
    }
  }

  // Every answered run is one of those, one is answered for every such run, of its subject
  // and no weaker, and no two answers share a subject.
  lemma AnswersAreExact(entries: seq<Entry>, c: Commit, run: AuditRun)
    ensures run in ReconciledRuns(entries, c) ==> MayBeAnswered(entries, c, run)
    ensures MayBeAnswered(entries, c, run) ==>
              exists chosen <- ReconciledRuns(entries, c) ::
                SameSubject(chosen, run) && KeyAtMost(KeyFor(run), KeyFor(chosen))
    ensures run in ReconciledRuns(entries, c) ==>
              forall other <- ReconciledRuns(entries, c) :: SameSubject(run, other) ==> run == other
  {
    hide MayBeAnswered, ProjectedRuns, UnsuppressedRuns, Deduped, SuppressedIds, KeyFor, KeyAtMost, SameSubject;
    PoolIsExact(entries, c, run);
    DedupedSubjects(ProjectedRuns(entries, c) + UnsuppressedRuns(c.upstream, SuppressedIds(entries, c)), run);
  }

  lemma OutcomeIsOrderFree(e: Entry, c: Commit, rows: seq<AuditRun>)
    requires SameRows(c.upstream, rows)
    ensures OutcomeFor(e, c) == OutcomeFor(e, c.(upstream := rows))
  {
    hide Projected, IsActive;
    forall run ensures run in ActiveForAction(c.upstream, e.auditKey) <==> run in ActiveForAction(rows, e.auditKey) {
      ActiveForActionMembers(c.upstream, e.auditKey, run);
      ActiveForActionMembers(rows, e.auditKey, run);
    }
    var a, b := ActiveForAction(c.upstream, e.auditKey), ActiveForAction(rows, e.auditKey);
    assert a != [] ==> a[0] in b;
    assert b != [] ==> b[0] in a;
  }

  // The order in which active-runs lists the same rows changes neither what a reconciliation
  // keeps and suppresses nor the sort keys of the runs it answers.
  lemma ReconcileIsOrderFree(entries: seq<Entry>, c: Commit, rows: seq<AuditRun>)
    requires SameRows(c.upstream, rows)
    ensures var d := c.(upstream := rows);
            && KeptEntries(entries, c) == KeptEntries(entries, d)
            && SuppressedIds(entries, c) == SuppressedIds(entries, d)
            && Keys(ReconciledRuns(entries, c)) == Keys(ReconciledRuns(entries, d))
  {
    hide OutcomeFor, Deduped, UnsuppressedRuns, KeptEntries, SuppressedIds, ProjectedRuns, Keys;
    var d := c.(upstream := rows);
    CommitsAgree(entries, c, rows);
    var suppressed := SuppressedIds(entries, c);
    forall run ensures run in UnsuppressedRuns(c.upstream, suppressed) <==> run in UnsuppressedRuns(rows, suppressed) {
      UnsuppressedMembers(c.upstream, suppressed, run);
      UnsuppressedMembers(rows, suppressed, run);
    }
    DedupedKeysAreOrderFree(ProjectedRuns(entries, c) + UnsuppressedRuns(c.upstream, suppressed),
                            ProjectedRuns(entries, d) + UnsuppressedRuns(rows, suppressed));
  }

  lemma {:induction false} CommitsAgree(entries: seq<Entry>, c: Commit, rows: seq<AuditRun>)
    requires SameRows(c.upstream, rows)
    ensures var d := c.(upstream := rows);
            && KeptEntries(entries, c) == KeptEntries(entries, d)
            && ProjectedRuns(entries, c) == ProjectedRuns(entries, d)
            && SuppressedIds(entries, c) == SuppressedIds(entries, d)
  {
    hide OutcomeFor;
    var d := c.(upstream := rows);
    forall e | e in entries ensures OutcomeFor(e, c) == OutcomeFor(e, d) {
      OutcomeIsOrderFree(e, c, rows);
    }
    if entries != [] {
      var n := |entries| - 1;
      CommitsAgree(entries[..n], c, rows);
      assert entries[n] in entries;
    }
  }

  // --------------------------------------------------------------- transactions

  // How one transaction fares with the file: whether it can be read and decoded, and how
  // its write ends, if it writes.
  datatype Access = Access(readable: bool, write: WriteOutcome)

  // One locked read-modify-write of the ledger file.
  datatype Transaction =
    | Record(entry: Entry, via: Access)
    | Prune(now: int, head: Option<string>, audited: map<string, string>, via: Access)
    | Reconcile(commit: Commit, via: Access)

  // What a transaction reads: nothing at all when the file is missing or damaged.
  function Seen(entries: seq<Entry>, via: Access): seq<Entry> {
    if via.readable then entries else []
  }

  // The reader skips a record without repository, project or action.
  predicate Decodable(e: Entry) {
    e.repoId != "" && e.projectId != "" && e.auditKey != ""
  }

  function Others(entries: seq<Entry>, entry: Entry): seq<Entry> {
    Filtered(entries, e => !SameIdentity(e, entry))
  }

  function Recorded(entries: seq<Entry>, entry: Entry): seq<Entry> {
    Others(entries, entry) + (if Decodable(entry) then [entry] else [])
  }

  predicate Survives(e: Entry, now: int, head: Option<string>, audited: map<string, string>) {
    Live(e, now) && !FreshFor(e, head, audited)
  }

  function Pruned(entries: seq<Entry>, now: int, head: Option<string>, audited: map<string, string>): seq<Entry> {
    Filtered(entries, e => Survives(e, now, head, audited))
  }

  // What a transaction makes of the entries it read.
  function Next(seen: seq<Entry>, t: Transaction): seq<Entry> {
    match t
    case Record(entry, _) => Recorded(seen, entry)
    case Prune(now, head, audited, _) => Pruned(seen, now, head, audited)
    case Reconcile(c, _) => KeptEntries(seen, c)
  }

  // A record is always written, the other transactions only when they drop an entry.
  predicate Writes(entries: seq<Entry>, t: Transaction) {
    t.Record? || Next(Seen(entries, t.via), t) != Seen(entries, t.via)
  }

  predicate Raises(entries: seq<Entry>, t: Transaction) {
    Writes(entries, t) && !t.via.write.Done?
  }

  function After(entries: seq<Entry>, t: Transaction): seq<Entry> {
    if Writes(entries, t) && t.via.write.Lands() then Next(Seen(entries, t.via), t) else entries
  }

  function AfterAll(entries: seq<Entry>, ts: seq<Transaction>): seq<Entry>
    decreases |ts|
  {
    if ts == [] then entries else AfterAll(After(entries, ts[0]), ts[1..])
  }

  lemma AfterNone(entries: seq<Entry>)
    ensures AfterAll(entries, []) == entries
  {
  }

  lemma AfterOne(entries: seq<Entry>, t: Transaction)
    ensures AfterAll(entries, [t]) == After(entries, t)
  {
  }

  lemma {:induction false} AfterAppend(entries: seq<Entry>, a: seq<Transaction>, b: seq<Transaction>)
    ensures AfterAll(entries, a + b) == AfterAll(AfterAll(entries, a), b)
    decreases |a|
  {
    hide After;
    if a == [] {
      assert a + b == b;
    } else {
      assert (a + b)[1..] == a[1..] + b;
      AfterAppend(After(entries, a[0]), a[1..], b);
    }
  }

  lemma RecordedMembers(entries: seq<Entry>, entry: Entry, e: Entry)
    ensures e in Recorded(entries, entry) <==>
            (e in entries && !SameIdentity(e, entry)) || (e == entry && Decodable(entry))
  {
    FilteredMembers(entries, x => !SameIdentity(x, entry), e);
  }

  lemma PrunedMembers(entries: seq<Entry>, now: int, head: Option<string>, audited: map<string, string>, e: Entry)
    ensures e in Pruned(entries, now, head, audited) <==> e in entries && Survives(e, now, head, audited)
  {
    FilteredMembers(entries, x => Survives(x, now, head, audited), e);
  }

  // A transaction that writes the entry into the file.
  predicate Records(t: Transaction, e: Entry) {
    t.Record? && t.entry == e && e.repoId != "" && e.projectId != "" && e.auditKey != "" && t.via.write.Lands()
  }

  // The audited head of an entry's action: the given one, or without any given the recorded one.
  function AuditedIn(e: Entry, audited: map<string, string>): Option<string> {
    if audited == map[] then e.auditedHead
    else if e.auditKey in audited then Some(audited[e.auditKey]) else None
  }

  // Why a transaction may remove an entry. A record that cannot read the file starts it
  // over; the other transactions find nothing to remove then.
  predicate Removes(t: Transaction, e: Entry) {
    && t.via.write.Lands()
    && match t
       case Record(entry, via) =>
         && !Records(t, e)
         && (via.readable ==> e.repoId == entry.repoId && e.auditKey == entry.auditKey && e.taskId == entry.taskId)
       case Prune(now, head, audited, via) =>
         && via.readable
         && (e.expires.at <= now || IsTerminalStatus(e.taskStatus)
             || (head.Some? && head == AuditedIn(e, audited)))
       case Reconcile(c, via) =>
         && via.readable && e.repoId == c.repoId
         && (e.expires.at <= c.now || IsTerminalStatus(e.taskStatus)
             || (e.taskId.Some? && e.taskId.value in c.cache && Ended(e, c)))
  }

  // An entry is in the file after a transaction exactly when the transaction recorded it,
  // or it was there and the transaction had no reason to remove it.
  lemma TransactionRemovesExactly(entries: seq<Entry>, t: Transaction, e: Entry)
    ensures e in After(entries, t) <==> Records(t, e) || (e in entries && !Removes(t, e))
  {
    hide IsTerminalStatus, Ended;
    var seen := Seen(entries, t.via);
    match t {
      case Record(entry, _) => RecordedMembers(seen, entry, e);
      case Prune(now, head, audited, _) => PrunedMembers(seen, now, head, audited, e);
      case Reconcile(c, _) =>
        KeptMembers(seen, c, e);
        if e in seen { CommitDropsExactly(seen, c, e); }
    }
  }

  // The same transaction with its write going through.
  function Landing(t: Transaction): Transaction {
    match t
    case Record(entry, via) => Record(entry, via.(write := Done))
    case Prune(now, head, audited, via) => Prune(now, head, audited, via.(write := Done))
    case Reconcile(c, via) => Reconcile(c, via.(write := Done))
  }

  // A transaction raises exactly when its write fails, and it writes a record always, and
  // otherwise only to remove an entry it could read.
  lemma RaisesExactly(entries: seq<Entry>, t: Transaction)
    ensures Raises(entries, t) <==> !t.via.write.Done? && (t.Record? || exists e <- entries :: Removes(Landing(t), e))
  {
    hide IsTerminalStatus, Ended, Filtered, OutcomeFor, Removes;
    var seen := Seen(entries, t.via);
    if !t.Record? {
      forall e | e in entries ensures Removes(Landing(t), e) <==> e !in After(entries, Landing(t)) {
        hide After;
        TransactionRemovesExactly(entries, Landing(t), e);
      }
      if Next(seen, t) != seen {
        FilteringDrops(seen, t);
      }
    }
  }

  lemma FilteringDrops(seen: seq<Entry>, t: Transaction)
    requires !t.Record? && Next(seen, t) != seen
    ensures exists e <- seen :: e !in Next(seen, t)
  {
    match t {
      case Prune(now, head, audited, _) =>
        FilteredIsAll(seen, e => Survives(e, now, head, audited));
        var e :| e in seen && !Survives(e, now, head, audited);
        PrunedMembers(seen, now, head, audited, e);
      case Reconcile(c, _) =>
        FilteredIsAll(seen, e => OutcomeFor(e, c).retained);
        var e :| e in seen && !OutcomeFor(e, c).retained;
        KeptMembers(seen, c, e);
    }
  }

  // From the k-th transaction on the entry is in the file and nothing removes it.
  predicate StandsFrom(entries: seq<Entry>, ts: seq<Transaction>, e: Entry, k: nat) {
    && k <= |ts|
    && (if k == 0 then e in entries else Records(ts[k - 1], e))
    && forall i :: k <= i < |ts| ==> !Removes(ts[i], e)
  }

  // Over any interleaving: an entry is there at the end exactly when, since it was last
  // recorded or first there, no transaction had a reason of its own to remove it.
  lemma {:induction false} EntryDisappearsOnlyForCause(entries: seq<Entry>, ts: seq<Transaction>, e: Entry)
    ensures e in AfterAll(entries, ts) <==> exists k :: StandsFrom(entries, ts, e, k)
    decreases |ts|
  {
    hide Removes, Records, After;
    if ts == [] {
      assert e in entries ==> StandsFrom(entries, ts, e, 0);
    } else {
      var n := |ts| - 1;
      EntryDisappearsOnlyForCause(entries, ts[..n], e);
      LastTransaction(entries, ts, e);
      if Records(ts[n], e) {
        assert StandsFrom(entries, ts, e, n + 1);
      } else {
        if e in AfterAll(entries, ts) {
          var k :| StandsFrom(entries, ts[..n], e, k);
          assert StandsFrom(entries, ts, e, k);
        }
        forall k | StandsFrom(entries, ts, e, k) ensures e in AfterAll(entries, ts) {
          assert StandsFrom(entries, ts[..n], e, k);
        }
      }
    }
  }

  lemma LastTransaction(entries: seq<Entry>, ts: seq<Transaction>, e: Entry)
    requires ts != []
    ensures var n := |ts| - 1;
            e in AfterAll(entries, ts) <==> Records(ts[n], e) || (e in AfterAll(entries, ts[..n]) && !Removes(ts[n], e))
  {
    hide Removes, Records, After;
    var n := |ts| - 1;
    assert ts == ts[..n] + [ts[n]];
    AfterAppend(entries, ts[..n], [ts[n]]);
    AfterOne(AfterAll(entries, ts[..n]), ts[n]);
    TransactionRemovesExactly(AfterAll(entries, ts[..n]), ts[n], e);
  }

  // Every entry lost along the way was removed by a transaction that had a reason to.
  lemma {:induction false} DisappearanceHasACause(entries: seq<Entry>, ts: seq<Transaction>, e: Entry) returns (k: nat)
    requires e in entries && e !in AfterAll(entries, ts)
    ensures k < |ts| && Removes(ts[k], e) && e in AfterAll(entries, ts[..k])
    decreases |ts|
  {
    hide Removes, Records, After;
    var n := |ts| - 1;
    LastTransaction(entries, ts, e);
    if e in AfterAll(entries, ts[..n]) {
      k := n;
    } else {
      k := DisappearanceHasACause(entries, ts[..n], e);
      assert ts[..n][..k] == ts[..k];
    }
  }

  // At most one entry per identity, kept by every transaction.
  predicate UniqueIdentities(entries: seq<Entry>) {
    forall i, j :: 0 <= i < j < |entries| ==> !SameIdentity(entries[i], entries[j])
  }

  lemma {:induction false} FilteredIsUnique(entries: seq<Entry>, keep: Entry -> bool)
    requires UniqueIdentities(entries)
    ensures UniqueIdentities(Filtered(entries, keep))
  {
    hide SameIdentity;
    if entries != [] {
      var n := |entries| - 1;
      var head := Filtered(entries[..n], keep);
      FilteredIsUnique(entries[..n], keep);
      forall i | 0 <= i < |head| ensures !SameIdentity(head[i], entries[n]) {
        FilteredMembers(entries[..n], keep, head[i]);
      }
    }
  }

  lemma NextIsUnique(seen: seq<Entry>, t: Transaction)
    requires UniqueIdentities(seen)
    ensures UniqueIdentities(Next(seen, t))
  {
    match t
    case Record(entry, _) =>
      FilteredIsUnique(seen, e => !SameIdentity(e, entry));
      var others := Others(seen, entry);
      forall i | 0 <= i < |others| ensures !SameIdentity(others[i], entry) {
        FilteredMembers(seen, e => !SameIdentity(e, entry), others[i]);
      }
    case Prune(now, head, audited, _) => FilteredIsUnique(seen, e => Survives(e, now, head, audited));
    case Reconcile(c, _) => FilteredIsUnique(seen, e => OutcomeFor(e, c).retained);
  }

  lemma TransactionKeepsUnique(entries: seq<Entry>, t: Transaction)
    requires UniqueIdentities(entries)
    ensures UniqueIdentities(After(entries, t)) && UniqueIdentities(Seen(entries, t.via))
  {
    hide Next;
    NextIsUnique(Seen(entries, t.via), t);
  }

  lemma {:induction false} RunKeepsUnique(entries: seq<Entry>, ts: seq<Transaction>)
    requires UniqueIdentities(entries)
    ensures UniqueIdentities(AfterAll(entries, ts))
    decreases |ts|
  {
    hide After, UniqueIdentities;
    if ts != [] {
      TransactionKeepsUnique(entries, ts[0]);
      RunKeepsUnique(After(entries, ts[0]), ts[1..]);
    }
  }
}
