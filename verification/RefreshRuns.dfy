// A whole refresh of the coordinator, with the imports that land while its exchange is in
// flight and wherever it is cut off, is one run of the protocol that sends one POST.
module RefreshRuns {
  import opened Wrappers
  import opened StateMachine
  import opened Journal
  import opened Outbox
  import opened Budget
  import opened Protocol
  import opened Invariants
  import opened Plans
  import opened Runs
  import opened PlanRuns
  import Coordinator

  // ------------------------------------------------------------ what a run leaves alone

  // The revisions a run may bring into use.
  predicate Introduces(acts: seq<Action>, revisions: set<Revision>) {
    forall a <- acts ::
      && (a.Import? ==> a.imported.revision in revisions)
      && (a.Answer? && a.answer.Succeeded? ==> a.answer.successor in revisions)
  }

  lemma StepIntroduces(w: World, a: Action, revisions: set<Revision>)
    requires Enabled(w, a) && Introduces([a], revisions)
    ensures Apply(w, a).line.used <= w.line.used + revisions
  {
    assert a in [a];
    hide KeysInJournal, CommitFile, ProjectionFile, Readable, EventKey, Owned, NextRecoveryAttempt, FirstAttempt, Keys,
         Spending.Reopened, Spending.Granted, Spending.Sent, Spending.Forgotten, Spending.Dropped, Enqueued,
         Acknowledged, StopRecord, WithContinuation;
  }

  lemma {:induction false} RunIntroduces(w: World, acts: seq<Action>, revisions: set<Revision>)
    requires Legal(w, acts) && Introduces(acts, revisions)
    ensures Exec(w, acts).line.used <= w.line.used + revisions
    decreases |acts|
  {
    hide Enabled, Apply;
    if acts != [] {
      var n := |acts| - 1;
      RunIntroduces(w, acts[..n], revisions);
      assert acts[n] in acts;
      StepIntroduces(Exec(w, acts[..n]), acts[n], revisions);
    }
  }

  lemma StepKeepsUnique(w: World, a: Action)
    requires Enabled(w, a) && Unique(w.disk.outbox)
    ensures Unique(Apply(w, a).disk.outbox)
  {
    if a.Enqueue? { EnqueueKeepsUnique(w.disk.outbox, a.record); }
    if a.Acknowledge? { AcknowledgeKeepsUnique(w.disk.outbox, a.key); }
    hide KeysInJournal, CommitFile, ProjectionFile, Readable, EventKey, Owned, NextRecoveryAttempt, FirstAttempt, Keys,
         Spending.Reopened, Spending.Granted, Spending.Sent, Spending.Forgotten, Spending.Dropped, Enqueued,
         Acknowledged, StopRecord, WithContinuation, Unique;
  }

  lemma {:induction false} RunKeepsUnique(w: World, acts: seq<Action>)
    requires Legal(w, acts) && Unique(w.disk.outbox)
    ensures Unique(Exec(w, acts).disk.outbox)
    decreases |acts|
  {
    hide Enabled, Apply, Unique;
    if acts != [] {
      RunKeepsUnique(w, acts[..|acts| - 1]);
      StepKeepsUnique(Exec(w, acts[..|acts| - 1]), acts[|acts| - 1]);
    }
  }

  predicate SendsNothing(acts: seq<Action>) {
    forall a <- acts :: !a.Send?
  }

  lemma {:induction false} SilentRun(w: World, acts: seq<Action>, r: Revision)
    requires Legal(w, acts) && SendsNothing(acts)
    ensures Posted(w, acts, r) == NONE
    decreases |acts|
  {
    hide Enabled, Apply;
    if acts != [] {
      SilentRun(w, acts[..|acts| - 1], r);
      assert acts[|acts| - 1] in acts;
    }
  }

  // ------------------------------------------------------------------ one import, cut off

  lemma {:induction false} ImportLeavesProcess(w: World, acts: seq<Action>, imported: StoredAuth)
    requires Legal(w, acts) && ImportSteps(acts, imported)
    ensures Exec(w, acts).proc.(importing := false) == w.proc.(importing := false)
    decreases |acts|
  {
    hide Enabled, Apply, LeavesProcess;
    if acts != [] {
      var n := |acts| - 1;
      ImportLeavesProcess(w, acts[..n], imported);
      assert acts[n] in acts;
      ImportStepLeavesProcess(Exec(w, acts[..n]), acts[n]);
    }
  }

  lemma ImportStepLeavesProcess(w: World, a: Action)
    requires Enabled(w, a) && (a.Import? || a.Supersede? || LeavesProcess(a))
    ensures Apply(w, a).proc.(importing := false) == w.proc.(importing := false)
  {
    if LeavesProcess(a) {
      DiskStepLeavesProcess(w, a);
    }
    hide KeysInJournal, Readable, EventKey, Keys, LeavesProcess;
  }

  // What a cut-off plan left is what some prefix of its run left.
  lemma CutOffIsRun(w: World, plan: Plan, acts: seq<Action>, after: Snapshot, completed: bool) returns (k: nat)
    requires Mirrors(w, plan, acts) && Coordinator.CutOff(Snap(w), plan, after, completed)
    ensures k <= |plan| == |acts| && Legal(w, acts[..k]) && Snap(Exec(w, acts[..k])) == after
    ensures completed ==> k == |plan|
  {
    hide Enabled, Apply, Perform;
    if completed {
      k := |plan|;
      assert plan[..k] == plan;
    } else {
      k :| 0 <= k <= |plan| && Coordinator.Reached(Snap(w), plan, after, k);
    }
    assert Follows(w, plan, acts, k);
    PrefixIsLegal(w, acts, k);
  }

  // An import that gets as far as `after` and releases the lock.
  lemma ImportIsRun(w: World, call: Coordinator.ImportCall, after: Snapshot) returns (acts: seq<Action>)
    requires !w.proc.importing && call.auth.revision !in w.line.used && call.auth.revision != ""
             && Unique(w.disk.outbox)
    requires Coordinator.ImportStep(Snap(w), call, after)
    ensures Legal(w, acts) && Snap(Exec(w, acts)) == after && Exec(w, acts).proc == w.proc
    ensures SendsNothing(acts) && Introduces(acts, {call.auth.revision})
  {
    hide Enabled, Apply, Perform, ImportPlan, Mirrors, Unique, Coordinator.CutOff;
    var whole := ImportRuns(w, call.auth, call.readable);
    var plan := ImportPlan(w.disk, call.auth, call.readable);
    var completed :| Coordinator.CutOff(Snap(w), plan, after, completed);
    var k := CutOffIsRun(w, plan, whole, after, completed);
    acts := whole[..k];
    PrefixImports(whole, call.auth, k);
    ImportLeavesProcess(w, acts, call.auth);
    var v := Exec(w, acts);
    if v.proc.importing {
      ReleaseStep(v);
      RunExtends(w, acts, ImportEnds);
      acts := acts + [ImportEnds];
    }
  }

  lemma PrefixImports(acts: seq<Action>, imported: StoredAuth, k: nat)
    requires ImportSteps(acts, imported) && k <= |acts|
    ensures ImportSteps(acts[..k], imported) && SendsNothing(acts[..k]) && Introduces(acts[..k], {imported.revision})
  {
    forall a | a in acts[..k] ensures a in acts {
    }
  }

  lemma ReleaseStep(w: World)
    requires w.proc.importing
    ensures Enabled(w, ImportEnds) && Snap(Apply(w, ImportEnds)) == Snap(w)
    ensures Apply(w, ImportEnds).proc == w.proc.(importing := false)
  {
  }

  // --------------------------------------------------------------------- all imports

  function Revisions(imports: seq<Coordinator.ImportCall>): set<Revision> {
    set call <- imports :: call.auth.revision
  }

  // Every import brings a revision of its own.
  predicate Distinct(imports: seq<Coordinator.ImportCall>, used: set<Revision>) {
    forall i :: 0 <= i < |imports| ==>
      && imports[i].auth.revision != "" && imports[i].auth.revision !in used
      && imports[i].auth.revision !in Revisions(imports[..i])
  }

  lemma IntroducesMore(acts: seq<Action>, revisions: set<Revision>, more: seq<Action>, others: set<Revision>)
    requires Introduces(acts, revisions) && Introduces(more, others)
    ensures Introduces(acts + more, revisions + others)
  {
  }

  lemma RevisionsNext(imports: seq<Coordinator.ImportCall>, n: nat)
    requires n < |imports|
    ensures Revisions(imports[..n + 1]) == Revisions(imports[..n]) + {imports[n].auth.revision}
  {
    assert imports[..n + 1] == imports[..n] + [imports[n]];
    var last := imports[n].auth.revision;
    forall r ensures r in Revisions(imports[..n + 1]) <==> r in Revisions(imports[..n]) || r == last {
      if r == last { assert imports[n] in imports[..n + 1]; }
    }
  }

  lemma {:induction false} ImportsAreRun(w: World, trail: seq<Snapshot>, imports: seq<Coordinator.ImportCall>)
    returns (acts: seq<Action>)
    requires !w.proc.importing && Unique(w.disk.outbox) && Distinct(imports, w.line.used)
    requires Coordinator.Imports(trail, imports) && trail[0] == Snap(w)
    ensures Legal(w, acts) && Snap(Exec(w, acts)) == trail[|trail| - 1] && Exec(w, acts).proc == w.proc
    ensures SendsNothing(acts) && Introduces(acts, Revisions(imports))
    decreases |imports|
  {
    hide Enabled, Apply, Unique, Coordinator.ImportStep, Introduces, Revisions;
    if imports == [] {
      acts := [];
      assert Introduces([], Revisions([])) by { NothingIntroduced(); }
    } else {
      var n := |imports| - 1;
      EarlierImports(trail, imports, w.line.used);
      acts := ImportsAreRun(w, trail[..n + 1], imports[..n]);
      RunIntroduces(w, acts, Revisions(imports[..n]));
      RunKeepsUnique(w, acts);
      var v := Exec(w, acts);
      var last := ImportIsRun(v, imports[n], trail[n + 1]);
      RunJoin(w, acts, last);
      IntroducesMore(acts, Revisions(imports[..n]), last, {imports[n].auth.revision});
      RevisionsNext(imports, n);
      assert imports[..n + 1] == imports;
      acts := acts + last;
    }
  }

  lemma NothingIntroduced()
    ensures Introduces([], Revisions([]))
  {
  }

  lemma EarlierImports(trail: seq<Snapshot>, imports: seq<Coordinator.ImportCall>, used: set<Revision>)
    requires imports != [] && Coordinator.Imports(trail, imports) && Distinct(imports, used)
    ensures var n := |imports| - 1;
            && Coordinator.Imports(trail[..n + 1], imports[..n]) && Distinct(imports[..n], used)
            && Coordinator.ImportStep(trail[n], imports[n], trail[n + 1])
            && imports[n].auth.revision != "" && imports[n].auth.revision !in used
            && imports[n].auth.revision !in Revisions(imports[..n])
  {
    hide Coordinator.ImportStep, Revisions;
    var n := |imports| - 1;
    forall i | 0 <= i < n ensures imports[..n][..i] == imports[..i] {
    }
  }

  // ------------------------------------------------------------------ the whole refresh

  lemma SendStep(w: World)
    requires w.proc.phase.Sending?
    ensures Enabled(w, Send) && Snap(Apply(w, Send)) == Snap(w) && Apply(w, Send).line == w.line
    ensures Apply(w, Send).proc == w.proc.(phase := InFlight(w.proc.phase.source))
    ensures forall r :: Sends(w, Send, r) == if r == w.proc.phase.source then NONE.Plus(w.proc.phase.kind) else NONE
  {
  }

  lemma AnswerStep(w: World, answer: Protocol.Answer)
    requires w.proc.phase.InFlight?
    requires answer.Succeeded? ==> answer.successor !in w.line.used && answer.successor != ""
    ensures Enabled(w, Action.Answer(answer)) && Snap(Apply(w, Action.Answer(answer))) == Snap(w)
    ensures Apply(w, Action.Answer(answer)).proc == w.proc.(phase := Answered(w.proc.phase.source, answer))
  {
  }

  // Preparation and the POST.
  lemma SentIsRun(w: World, expected: Option<Revision>, readable: bool, now: int, alive: RefreshOwner -> bool,
                  sink: string -> bool)
    returns (acts: seq<Action>)
    requires Sound(w) && w.proc.AtRest() && OwnerIsValid(w.proc.owner) && alive(w.proc.owner) && Unique(w.disk.outbox)
    requires PreparePlan(Snap(w), expected, now, w.proc.owner, alive, sink, readable).outcome.Dispatch?
    ensures Legal(w, acts) && Exec(w, acts).line.used <= w.line.used && Unique(Exec(w, acts).disk.outbox)
    ensures var p := PreparePlan(Snap(w), expected, now, w.proc.owner, alive, sink, readable);
            && Snap(Exec(w, acts)) == Perform(Snap(w), p.plan)
            && Exec(w, acts).proc == w.proc.(phase := InFlight(p.outcome.auth.revision))
            && PostsOnce(w, acts, p.outcome)
  {
    hide Enabled, Apply, Perform, PreparePlan, Mirrors, Unique, Sound, Introduces, Sends, Posted, Prepares, DiskOnly,
         Counts.Add, Counts.Plus;
    var p := PreparePlan(Snap(w), expected, now, w.proc.owner, alive, sink, readable);
    var preparing := PrepareRuns(w, expected, now, alive, sink, readable);
    MirrorEnds(w, p.plan, preparing);
    PreparingIsSilent(preparing);
    RunIntroduces(w, preparing, {});
    RunKeepsUnique(w, preparing);
    SendStep(Exec(w, preparing));
    acts := preparing + [Send];
    forall r ensures Posted(w, acts, r) == if r == p.outcome.auth.revision then NONE.Plus(p.outcome.kind) else NONE {
      SilentRun(w, preparing, r);
      PostedNext(w, preparing, Send, r);
      AddAssociates(NONE.Plus(p.outcome.kind), NONE, NONE);
      AddAssociates(NONE, NONE, NONE);
    }
    RunExtends(w, preparing, Send);
  }

  // One POST, for the credential of the dispatch, in its lane.
  ghost predicate PostsOnce(w: World, acts: seq<Action>, dispatch: Outcome)
    requires Legal(w, acts) && dispatch.Dispatch?
  {
    forall r :: Posted(w, acts, r) == if r == dispatch.auth.revision then NONE.Plus(dispatch.kind) else NONE
  }

  // The imports that land while the exchange is in flight, and its answer.
  lemma FlightIsRun(w: World, trail: seq<Snapshot>, imports: seq<Coordinator.ImportCall>, answer: Protocol.Answer)
    returns (acts: seq<Action>)
    requires w.proc.phase.InFlight? && !w.proc.importing && Unique(w.disk.outbox) && Distinct(imports, w.line.used)
    requires Coordinator.Imports(trail, imports) && trail[0] == Snap(w)
    requires answer.Succeeded? ==>
               answer.successor != "" && answer.successor !in w.line.used && answer.successor !in Revisions(imports)
    ensures Legal(w, acts) && Snap(Exec(w, acts)) == trail[|trail| - 1] && SendsNothing(acts)
    ensures Exec(w, acts).proc == w.proc.(phase := Answered(w.proc.phase.source, answer))
  {
    hide Enabled, Apply, Unique, Coordinator.Imports, Introduces, Revisions, Distinct;
    var importing := ImportsAreRun(w, trail, imports);
    RunIntroduces(w, importing, Revisions(imports));
    AnswerStep(Exec(w, importing), answer);
    RunExtends(w, importing, Action.Answer(answer));
    acts := importing + [Action.Answer(answer)];
  }

  // What a refresh that sends its exchange did up to the answer.
  lemma ExchangeIsRun(w: World, expected: Option<Revision>, readable: bool, now: int, alive: RefreshOwner -> bool,
                      sink: string -> bool, trail: seq<Snapshot>, imports: seq<Coordinator.ImportCall>,
                      answer: Protocol.Answer)
    returns (acts: seq<Action>)
    requires Sound(w) && w.proc.AtRest() && OwnerIsValid(w.proc.owner) && alive(w.proc.owner) && Unique(w.disk.outbox)
    requires var p := PreparePlan(Snap(w), expected, now, w.proc.owner, alive, sink, readable);
             && p.outcome.Dispatch? && Coordinator.Imports(trail, imports) && trail[0] == Perform(Snap(w), p.plan)
    requires Distinct(imports, w.line.used)
    requires answer.Succeeded? ==>
               answer.successor != "" && answer.successor !in w.line.used && answer.successor !in Revisions(imports)
    ensures Legal(w, acts) && Snap(Exec(w, acts)) == trail[|trail| - 1]
    ensures var p := PreparePlan(Snap(w), expected, now, w.proc.owner, alive, sink, readable);
            && Exec(w, acts).proc == w.proc.(phase := Answered(p.outcome.auth.revision, answer))
            && PostsOnce(w, acts, p.outcome)
  {
    hide Enabled, Apply, Perform, PreparePlan, Unique, Sound, Coordinator.Imports, Revisions, Distinct, PostsOnce;
    var p := PreparePlan(Snap(w), expected, now, w.proc.owner, alive, sink, readable);
    var sending := SentIsRun(w, expected, readable, now, alive, sink);
    var sent := Exec(w, sending);
    DistinctFewer(imports, w.line.used, sent.line.used);
    var flying := FlightIsRun(sent, trail, imports, answer);
    RunJoin(w, sending, flying);
    acts := sending + flying;
    StillPostsOnce(w, sending, flying, p.outcome);
  }

  lemma StillPostsOnce(w: World, acts: seq<Action>, more: seq<Action>, dispatch: Outcome)
    requires Legal(w, acts) && Legal(Exec(w, acts), more) && SendsNothing(more)
    requires dispatch.Dispatch? && PostsOnce(w, acts, dispatch)
    ensures Legal(w, acts + more) && PostsOnce(w, acts + more, dispatch)
  {
    hide Enabled, Apply, Counts.Add, Counts.Plus, Posted;
    RunJoin(w, acts, more);
    forall r
      ensures Posted(w, acts + more, r) == if r == dispatch.auth.revision then NONE.Plus(dispatch.kind) else NONE
    {
      SilentRun(Exec(w, acts), more, r);
      PostedJoin(w, acts, more, r);
      AddAssociates(Posted(w, acts, r), NONE, NONE);
    }
  }

  lemma PreparingIsSilent(acts: seq<Action>)
    requires Prepares(acts)
    ensures SendsNothing(acts) && Introduces(acts, {})
  {
    forall a | a in acts ensures LeavesProcess(a) || a.Request? {
      var k :| 0 <= k < |acts| && acts[k] == a;
      PreparesStep(acts, k);
    }
  }

  lemma DistinctFewer(imports: seq<Coordinator.ImportCall>, used: set<Revision>, fewer: set<Revision>)
    requires Distinct(imports, used) && fewer <= used
    ensures Distinct(imports, fewer)
  {
  }

  // A refresh that sends its exchange is a run of the protocol that posts exactly once, for
  // the credential it found, and ends with the disk the refresh left: through whatever the
  // imports did meanwhile, and wherever the commit was cut off.
  lemma RefreshIsRun(w: World, expected: Option<Revision>, readable: bool, now: int, alive: RefreshOwner -> bool,
                     sink: string -> bool, trail: seq<Snapshot>, imports: seq<Coordinator.ImportCall>,
                     answer: Protocol.Answer, later: int, reason: string, responseClass: Option<string>,
                     rereadable: bool, after: Snapshot, completed: bool)
    returns (acts: seq<Action>)
    requires Sound(w) && w.proc.AtRest() && OwnerIsValid(w.proc.owner) && alive(w.proc.owner) && Unique(w.disk.outbox)
    requires var p := PreparePlan(Snap(w), expected, now, w.proc.owner, alive, sink, readable);
             && p.outcome.Dispatch? && Coordinator.Imports(trail, imports) && trail[0] == Perform(Snap(w), p.plan)
             && var last, source := trail[|trail| - 1], p.outcome.auth.revision;
                Coordinator.CutOff(last,
                                   CommitPlan(last, source, answer, later, reason, responseClass, rereadable,
                                              sink).plan,
                                   after, completed)
    requires Distinct(imports, w.line.used)
    requires answer.Succeeded? ==>
               answer.successor != "" && answer.successor !in w.line.used && answer.successor !in Revisions(imports)
    ensures Legal(w, acts) && Sound(Exec(w, acts)) && Snap(Exec(w, acts)) == after
    ensures PostsOnce(w, acts, PreparePlan(Snap(w), expected, now, w.proc.owner, alive, sink, readable).outcome)
  {
    hide Enabled, Apply, Perform, PreparePlan, CommitPlan, Mirrors, Unique, Sound, Coordinator.Imports,
         Coordinator.CutOff, Revisions, Distinct, PostsOnce, DiskOnly, LeavesProcess;
    var p := PreparePlan(Snap(w), expected, now, w.proc.owner, alive, sink, readable);
    var exchange := ExchangeIsRun(w, expected, readable, now, alive, sink, trail, imports, answer);
    RunKeepsSound(w, exchange);
    RunKeepsUnique(w, exchange);
    var answered := Exec(w, exchange);
    var whole := CommitRuns(answered, later, reason, responseClass, rereadable, sink);
    var plan := CommitPlan(Snap(answered), p.outcome.auth.revision, answer, later, reason, responseClass, rereadable,
                           sink).plan;
    var k := CutOffIsRun(answered, plan, whole, after, completed);
    CommittingIsSilent(whole, k);
    RunJoin(w, exchange, whole[..k]);
    acts := exchange + whole[..k];
    RunKeepsSound(w, acts);
    StillPostsOnce(w, exchange, whole[..k], p.outcome);
  }

  lemma CommittingIsSilent(acts: seq<Action>, k: nat)
    requires acts == [] || (acts[0].Commit? && DiskOnly(acts[1..]))
    requires k <= |acts|
    ensures SendsNothing(acts[..k])
  {
    forall a | a in acts[..k] ensures !a.Send? {
      var i :| 0 <= i < k && acts[i] == a;
      if i > 0 { assert acts[1..][i - 1] in acts[1..]; }
    }
  }
}
