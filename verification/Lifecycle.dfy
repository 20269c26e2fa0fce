// Audit task lifecycle and the choice among conflicting projections (audit/lifecycle.py).
// A timestamp keeps its text and the instant it parses to, if any.
module Lifecycle {
  import opened Wrappers

  datatype Stamp = Stamp(text: string, instant: Option<int>)

  datatype AuditRun = AuditRun(
    taskId: Option<string>,
    actionKey: Option<string>,
    status: Option<string>,
    createdAt: Option<Stamp>,
    startedAt: Option<Stamp>,
    completedAt: Option<Stamp>,
    projectionSource: Option<string>,
    projectionStatusSource: Option<string>,
    expiresAt: Option<string>,
    currentHead: Option<string>,
    lastAuditedHead: Option<string>)

  datatype TaskLifecycle = Failed | Completed | Running | Queued

  const FAILURE_STATUSES := {"failed", "failure", "error"}
  const TERMINAL_STATUSES := {"completed", "canceled", "cancelled", "skipped"} + FAILURE_STATUSES
  const RUNNING_STATUSES := {"running", "started", "in_progress", "in-progress"}
  const QUEUED_STATUSES := {"queued", "pending"}

  predicate IsSpace(c: char) {
    c == ' ' || '\t' <= c <= '\r' || '\U{1C}' <= c <= '\U{1F}'
  }

  function StripLeft(s: string): string {
    if s != [] && IsSpace(s[0]) then StripLeft(s[1..]) else s
  }

  function StripRight(s: string): string {
    if s != [] && IsSpace(s[|s| - 1]) then StripRight(s[..|s| - 1]) else s
  }

  function LowerChar(c: char): char {
    if 'A' <= c <= 'Z' then (c as int + 32) as char else c
  }

  function Lower(s: string): string {
    seq(|s|, i requires 0 <= i < |s| => LowerChar(s[i]))
  }

  // (status or "").strip().lower(), over ASCII.
  function Normalized(status: Option<string>): string {
    if status.None? then "" else Lower(StripRight(StripLeft(status.value)))
  }

  lemma {:induction false} StrippedLeft(lead: string, s: string)
    requires forall c <- lead :: IsSpace(c)
    requires s != [] ==> !IsSpace(s[0])
    ensures StripLeft(lead + s) == s
  {
    if lead == [] {
      assert lead + s == s;
    } else {
      assert (lead + s)[1..] == lead[1..] + s;
      StrippedLeft(lead[1..], s);
    }
  }

  lemma {:induction false} StrippedRight(s: string, trail: string)
    requires forall c <- trail :: IsSpace(c)
    requires s != [] ==> !IsSpace(s[|s| - 1])
    ensures StripRight(s + trail) == s
  {
    if trail == [] {
      assert s + trail == s;
    } else {
      var n := |trail| - 1;
      assert (s + trail)[..|s| + n] == s + trail[..n];
      StrippedRight(s, trail[..n]);
    }
  }

  lemma SpaceIsExact(c: char)
    ensures IsSpace(c) <==> c in {' ', '\t', '\n', '\U{0B}', '\U{0C}', '\r', '\U{1C}', '\U{1D}', '\U{1E}', '\U{1F}'}
  {
    assert IsSpace(c) ==> c as int in {9, 10, 11, 12, 13, 28, 29, 30, 31, 32};
  }

  // A status word is read without the white space around it, its capitals as small letters
  // and the rest of it as it is; a missing status reads as the empty word.
  lemma NormalizedIsExact(lead: string, word: string, trail: string)
    requires forall c <- lead + trail :: IsSpace(c)
    requires word != [] ==> !IsSpace(word[0]) && !IsSpace(word[|word| - 1])
    ensures Normalized(None) == "" && |Normalized(Some(lead + word + trail))| == |word|
    ensures forall i :: 0 <= i < |word| ==>
              var c := Normalized(Some(lead + word + trail))[i];
              && ('A' <= word[i] <= 'Z' ==> c as int == word[i] as int + 32)
              && (!('A' <= word[i] <= 'Z') ==> c == word[i])
  {
    if word == [] {
      StrippedLeft(lead + trail, []);
      assert lead + word + trail == lead + trail + [];
    } else {
      assert lead + word + trail == lead + (word + trail);
      StrippedLeft(lead, word + trail);
      StrippedRight(word, trail);
    }
  }

  predicate IsTerminalStatus(status: Option<string>) {
    Normalized(status) in TERMINAL_STATUSES
  }

  function LifecycleOf(status: Option<string>, started: bool, completed: bool): TaskLifecycle {
    var normalized := Normalized(status);
    if normalized in FAILURE_STATUSES then TaskLifecycle.Failed
    else if completed || normalized in TERMINAL_STATUSES then Completed
    else if normalized in RUNNING_STATUSES then Running
    else if normalized in QUEUED_STATUSES then Queued
    else if started then Running else Queued
  }

  function RunLifecycle(run: AuditRun): TaskLifecycle {
    LifecycleOf(run.status, run.startedAt.Some?, run.completedAt.Some?)
  }

  predicate IsActive(run: AuditRun) {
    RunLifecycle(run).Queued? || RunLifecycle(run).Running?
  }

  // A run is active exactly when nothing says it ended.
  lemma ActiveMeansNotEnded(run: AuditRun)
    ensures IsActive(run) <==> run.completedAt.None? && !IsTerminalStatus(run.status)
  {
    assert forall s :: s in FAILURE_STATUSES ==> s in TERMINAL_STATUSES;
  }

  // Which lifecycle a row has: a failure word outranks a completion time, a completion time
  // outranks every other word, and a start time decides only for words nobody knows.
  lemma LifecycleIsExact(run: AuditRun)
    ensures var word, lifecycle := Normalized(run.status), RunLifecycle(run);
            var ended := word in {"completed", "canceled", "cancelled", "skipped"};
            var failed := word in {"failed", "failure", "error"};
            var running := word in {"running", "started", "in_progress", "in-progress"};
            var queued := word in {"queued", "pending"};
            && (lifecycle.Failed? <==> failed)
            && (lifecycle.Completed? <==> !failed && (ended || run.completedAt.Some?))
            && (lifecycle.Running? <==> !failed && !ended && run.completedAt.None?
                                        && (running || (!queued && run.startedAt.Some?)))
            && (lifecycle.Queued? <==> !failed && !ended && run.completedAt.None?
                                       && !running && (queued || run.startedAt.None?))
            && (IsTerminalStatus(run.status) <==> failed || ended)
  {
    assert forall s :: s in TERMINAL_STATUSES <==>
      s in {"completed", "canceled", "cancelled", "skipped", "failed", "failure", "error"};
  }

  function ActiveForAction(runs: seq<AuditRun>, actionKey: string): seq<AuditRun> {
    if runs == [] then []
    else (if runs[0].actionKey == Some(actionKey) && IsActive(runs[0]) then [runs[0]] else [])
         + ActiveForAction(runs[1..], actionKey)
  }

  lemma {:induction false} ActiveForActionMembers(runs: seq<AuditRun>, actionKey: string, run: AuditRun)
    ensures run in ActiveForAction(runs, actionKey) <==>
            run in runs && run.actionKey == Some(actionKey) && IsActive(run)
  {
    if runs != [] {
      ActiveForActionMembers(runs[1..], actionKey, run);
    }
  }

  // -------------------------------------------------------------- lexicographic order

  // Numbers and texts are both compared as sequences of numbers; no number is [].
  type Component = seq<int>
  type SortKey = seq<Component>

  predicate AtMost(a: Component, b: Component)
    decreases |a|
  {
    a == [] || (b != [] && (a[0] < b[0] || (a[0] == b[0] && AtMost(a[1..], b[1..]))))
  }

  predicate KeyAtMost(a: SortKey, b: SortKey)
    decreases |a|
  {
    a == []
    || (b != [] && AtMost(a[0], b[0]) && (a[0] == b[0] ==> KeyAtMost(a[1..], b[1..])))
  }

  lemma {:induction false} AtMostIsAntisymmetric(a: Component, b: Component)
    ensures AtMost(a, b) && AtMost(b, a) <==> a == b
    decreases |a|
  {
    if a != [] && b != [] {
      AtMostIsAntisymmetric(a[1..], b[1..]);
      assert a == [a[0]] + a[1..] && b == [b[0]] + b[1..];
    }
  }

  lemma {:induction false} AtMostIsTotal(a: Component, b: Component)
    ensures AtMost(a, b) || AtMost(b, a)
    decreases |a|
  {
    if a != [] && b != [] && a[0] == b[0] {
      AtMostIsTotal(a[1..], b[1..]);
    }
  }

  lemma {:induction false} AtMostIsTransitive(a: Component, b: Component, c: Component)
    requires AtMost(a, b) && AtMost(b, c)
    ensures AtMost(a, c)
    decreases |a|
  {
    if a != [] && a[0] == b[0] && b[0] == c[0] {
      AtMostIsTransitive(a[1..], b[1..], c[1..]);
    }
  }

  lemma {:induction false} KeyOrderIsAntisymmetric(a: SortKey, b: SortKey)
    ensures KeyAtMost(a, b) && KeyAtMost(b, a) <==> a == b
    decreases |a|
  {
    if a != [] && b != [] {
      AtMostIsAntisymmetric(a[0], b[0]);
      KeyOrderIsAntisymmetric(a[1..], b[1..]);
      assert a == [a[0]] + a[1..] && b == [b[0]] + b[1..];
    }
  }

  lemma {:induction false} KeyOrderIsTotal(a: SortKey, b: SortKey)
    ensures KeyAtMost(a, b) || KeyAtMost(b, a)
    decreases |a|
  {
    if a != [] && b != [] {
      AtMostIsTotal(a[0], b[0]);
      KeyOrderIsTotal(a[1..], b[1..]);
    }
  }

  lemma {:induction false} KeyOrderIsTransitive(a: SortKey, b: SortKey, c: SortKey)
    requires KeyAtMost(a, b) && KeyAtMost(b, c)
    ensures KeyAtMost(a, c)
    decreases |a|
  {
    if a != [] {
      AtMostIsTransitive(a[0], b[0], c[0]);
      if a[0] == c[0] {
        AtMostIsAntisymmetric(a[0], b[0]);
        KeyOrderIsTransitive(a[1..], b[1..], c[1..]);
      }
    }
  }

  // ------------------------------------------------------------------- sort keys

  function TextKey(s: string): Component {
    seq(|s|, i requires 0 <= i < |s| => s[i] as int)
  }

  function OptionalTextKey(o: Option<string>): Component {
    if o.None? then [] else TextKey(o.value)
  }

  function StampKey(o: Option<Stamp>): Component {
    if o.None? then [] else TextKey(o.value.text)
  }

  function Later(a: Option<int>, b: Option<int>): Option<int> {
    if a.None? then b else if b.None? || b.value <= a.value then a else b
  }

  function InstantOf(stamp: Option<Stamp>): Option<int> {
    if stamp.None? then None else stamp.value.instant
  }

  function Newest(run: AuditRun): Option<int> {
    Later(Later(InstantOf(run.createdAt), InstantOf(run.startedAt)), InstantOf(run.completedAt))
  }

  function LifecyclePriority(lifecycle: TaskLifecycle): int {
    match lifecycle case Running => 4 case Queued => 3 case Failed => 2 case Completed => 1
  }

  // projection_sort_key; the artifact schema name a run never has is [].
  function KeyFor(run: AuditRun): SortKey {
    [[LifecyclePriority(RunLifecycle(run))],
     if Newest(run).None? then [] else [Newest(run).value],
     OptionalTextKey(run.actionKey),
     OptionalTextKey(run.taskId),
     TextKey(Normalized(run.status)),
     StampKey(run.completedAt),
     StampKey(run.startedAt),
     StampKey(run.createdAt),
     OptionalTextKey(run.projectionSource),
     OptionalTextKey(run.projectionStatusSource),
     OptionalTextKey(run.expiresAt),
     OptionalTextKey(run.currentHead),
     OptionalTextKey(run.lastAuditedHead),
     []]
  }

  // How far a row is towards running, as a choice between rows sees it.
  predicate Outranks(a: TaskLifecycle, b: TaskLifecycle) {
    match a
    case Running => !b.Running?
    case Queued => b.Failed? || b.Completed?
    case Failed => b.Completed?
    case Completed => false
  }

  predicate NewerThan(a: Option<int>, b: Option<int>) {
    a.Some? && (b.None? || b.value < a.value)
  }

  // The latest of the three instants a row carries.
  predicate IsLatest(latest: Option<int>, run: AuditRun) {
    && (latest.Some? ==> latest in {InstantOf(run.createdAt), InstantOf(run.startedAt), InstantOf(run.completedAt)})
    && !NewerThan(InstantOf(run.createdAt), latest) && !NewerThan(InstantOf(run.startedAt), latest)
    && !NewerThan(InstantOf(run.completedAt), latest)
  }

  // max(projections, key=...): the first of the largest.
  function Representative(runs: seq<AuditRun>): AuditRun
    requires runs != []
  {
    RepresentativeBy(runs, KeyFor)
  }

  function RepresentativeBy(runs: seq<AuditRun>, key: AuditRun -> SortKey): AuditRun
    requires runs != []
  {
    if |runs| == 1 then runs[0]
    else
      var best := RepresentativeBy(runs[1..], key);
      if KeyAtMost(key(best), key(runs[0])) then runs[0] else best
  }

  lemma {:induction false} RepresentativeIsMaximal(runs: seq<AuditRun>, key: AuditRun -> SortKey)
    requires runs != []
    ensures RepresentativeBy(runs, key) in runs
    ensures forall run <- runs :: KeyAtMost(key(run), key(RepresentativeBy(runs, key)))
  {
    if |runs| == 1 {
      KeyOrderIsAntisymmetric(key(runs[0]), key(runs[0]));
    } else {
      var rest := runs[1..];
      var best, chosen := RepresentativeBy(rest, key), RepresentativeBy(runs, key);
      RepresentativeIsMaximal(rest, key);
      KeyOrderIsTotal(key(best), key(runs[0]));
      KeyOrderIsAntisymmetric(key(chosen), key(chosen));
      forall run | run in runs ensures KeyAtMost(key(run), key(chosen)) {
        if run != runs[0] {
          assert run in rest;
          KeyOrderIsTransitive(key(run), key(best), key(chosen));
        }
      }
    }
  }

  // A larger first component decides, and between equal ones a larger second.
  lemma ComponentsDecide(x: SortKey, y: SortKey)
    requires |x| >= 2 && |y| >= 2 && |x[0]| == 1 && |y[0]| == 1 && |x[1]| <= 1 && |y[1]| <= 1
    requires KeyAtMost(x, y)
    ensures x[0][0] <= y[0][0]
    ensures x[0] == y[0] && x[1] != [] ==> y[1] != [] && x[1][0] <= y[1][0]
  {
    assert x[1..][0] == x[1] && y[1..][0] == y[1];
  }

  // The chosen row is running if any is, else queued, failed or completed in this order, and
  // among the rows of its lifecycle none is newer.
  lemma ChoicePrefersProgress(runs: seq<AuditRun>, other: AuditRun, latest: Option<int>, chosen: Option<int>)
    requires other in runs && IsLatest(latest, other) && IsLatest(chosen, Representative(runs))
    ensures Representative(runs) in runs
    ensures !Outranks(RunLifecycle(other), RunLifecycle(Representative(runs)))
    ensures RunLifecycle(other) == RunLifecycle(Representative(runs)) ==> !NewerThan(latest, chosen)
  {
    hide RepresentativeBy, TextKey, OptionalTextKey, StampKey, Normalized, KeyAtMost, LifecycleOf;
    var best := Representative(runs);
    RepresentativeIsMaximal(runs, KeyFor) by { hide KeyFor; }
    NewestIsLatest(other, latest);
    NewestIsLatest(best, chosen);
    ComponentsDecide(KeyFor(other), KeyFor(best));
  }

  lemma NewestIsLatest(run: AuditRun, latest: Option<int>)
    requires IsLatest(latest, run)
    ensures Newest(run) == latest
  {
  }

  // The chosen key depends only on which runs there are, not on their order or number.
  lemma RepresentativeKeyIsOrderFree(a: seq<AuditRun>, b: seq<AuditRun>, key: AuditRun -> SortKey)
    requires a != [] && b != [] && forall run :: run in a <==> run in b
    ensures key(RepresentativeBy(a, key)) == key(RepresentativeBy(b, key))
  {
    RepresentativeIsMaximal(a, key);
    RepresentativeIsMaximal(b, key);
    KeyOrderIsAntisymmetric(key(RepresentativeBy(a, key)), key(RepresentativeBy(b, key)));
  }

  // -------------------------------------------------------- what a key leaves open

  function TextOf(o: Option<string>): string {
    if o.None? then "" else o.value
  }

  function StampText(o: Option<Stamp>): string {
    if o.None? then "" else o.value.text
  }

  lemma TextKeyIsInjective(a: string, b: string)
    requires TextKey(a) == TextKey(b)
    ensures a == b
  {
    forall i | 0 <= i < |a| ensures a[i] == b[i] {
      assert TextKey(a)[i] == TextKey(b)[i];
    }
  }

  lemma EqualComponents(a: AuditRun, b: AuditRun, i: nat)
    requires KeyFor(a) == KeyFor(b) && i < 14
    ensures KeyFor(a)[i] == KeyFor(b)[i]
  {
  }

  // Runs with the same key say the same in every field, but for how a missing text and the
  // spelling of a status are written: the choice among them is immaterial.
  lemma KeyDeterminesTheRun(a: AuditRun, b: AuditRun)
    requires KeyFor(a) == KeyFor(b)
    ensures RunLifecycle(a) == RunLifecycle(b) && Normalized(a.status) == Normalized(b.status)
    ensures TextOf(a.actionKey) == TextOf(b.actionKey) && TextOf(a.taskId) == TextOf(b.taskId)
    ensures StampText(a.completedAt) == StampText(b.completedAt)
    ensures StampText(a.startedAt) == StampText(b.startedAt) && StampText(a.createdAt) == StampText(b.createdAt)
    ensures TextOf(a.projectionSource) == TextOf(b.projectionSource)
    ensures TextOf(a.projectionStatusSource) == TextOf(b.projectionStatusSource)
    ensures TextOf(a.expiresAt) == TextOf(b.expiresAt) && TextOf(a.currentHead) == TextOf(b.currentHead)
    ensures TextOf(a.lastAuditedHead) == TextOf(b.lastAuditedHead)
  {
    forall i: nat | i < 14 ensures KeyFor(a)[i] == KeyFor(b)[i] {
      EqualComponents(a, b, i);
    }
    assert LifecyclePriority(RunLifecycle(a)) == LifecyclePriority(RunLifecycle(b)) by {
      assert KeyFor(a)[0] == [LifecyclePriority(RunLifecycle(a))];
      assert KeyFor(b)[0] == [LifecyclePriority(RunLifecycle(b))];
    }
    TextKeyIsInjective(TextOf(a.actionKey), TextOf(b.actionKey));
    TextKeyIsInjective(TextOf(a.taskId), TextOf(b.taskId));
    TextKeyIsInjective(Normalized(a.status), Normalized(b.status));
    TextKeyIsInjective(StampText(a.completedAt), StampText(b.completedAt));
    TextKeyIsInjective(StampText(a.startedAt), StampText(b.startedAt));
    TextKeyIsInjective(StampText(a.createdAt), StampText(b.createdAt));
    TextKeyIsInjective(TextOf(a.projectionSource), TextOf(b.projectionSource));
    TextKeyIsInjective(TextOf(a.projectionStatusSource), TextOf(b.projectionStatusSource));
    TextKeyIsInjective(TextOf(a.expiresAt), TextOf(b.expiresAt));
    TextKeyIsInjective(TextOf(a.currentHead), TextOf(b.currentHead));
    TextKeyIsInjective(TextOf(a.lastAuditedHead), TextOf(b.lastAuditedHead));
  }
}
