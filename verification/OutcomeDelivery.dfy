// At-least-once delivery of terminal outcomes, over every run.
module OutcomeDelivery {
  import opened StateMachine
  import opened Outbox
  import Budget
  import opened Protocol
  import opened Invariants

  predicate Delivered(key: string, outbox: seq<OutboxRecord>, accepted: set<string>) {
    key in accepted || key in Keys(outbox)
  }

  // The key is the current readable journal's, which still says it was not enqueued.
  predicate Waiting(key: string, j: JournalFile) {
    j.HasTerminal() && j.Read().JournalLoaded? && !j.enqueued && KeyOf(j.state) == key
  }

  ghost predicate DeliveryOk(j: JournalFile, outbox: seq<OutboxRecord>, outcomes: Outcomes) {
    && Unique(outbox)
    && KeysInJournal(j) <= outcomes.journalled
    && (forall key <- outcomes.journalled :: Delivered(key, outbox, outcomes.accepted) || Waiting(key, j))
    && (j.HasTerminal() && (j.enqueued || !j.Read().JournalLoaded?) ==>
          Delivered(KeyOf(j.state), outbox, outcomes.accepted))
  }

  ghost predicate Delivers(w: World) {
    DeliveryOk(w.disk.journal, w.disk.outbox, w.outcomes)
  }

  // The one step that loses an outcome: an import deletes a journal whose outcome is neither
  // accepted nor queued, which it does only when it could not read it.
  predicate LosesOutcome(w: World, a: Action)
    requires Enabled(w, a)
  {
    && a.Supersede? && a.o.Lands() && w.disk.journal.HasTerminal()
    && Waiting(KeyOf(w.disk.journal.state), w.disk.journal)
    && !Delivered(KeyOf(w.disk.journal.state), w.disk.outbox, w.outcomes.accepted)
  }

  // No step of the run is one.
  predicate LosesNoOutcome(w: World, acts: seq<Action>)
    requires Legal(w, acts)
    decreases |acts|
  {
    acts == [] || (var n := |acts| - 1; LosesNoOutcome(w, acts[..n]) && !LosesOutcome(Exec(w, acts[..n]), acts[n]))
  }

  // Replacing the journal is safe once the outcome it held is delivered or carried over.
  lemma JournalReplacement(j: JournalFile, next: JournalFile, outbox: seq<OutboxRecord>, outcomes: Outcomes)
    requires DeliveryOk(j, outbox, outcomes)
    requires forall key :: Waiting(key, j) ==> Waiting(key, next) || Delivered(key, outbox, outcomes.accepted)
    requires next.HasTerminal() && (next.enqueued || !next.Read().JournalLoaded?) ==>
               Delivered(KeyOf(next.state), outbox, outcomes.accepted)
    ensures DeliveryOk(next, outbox, outcomes.(journalled := outcomes.journalled + KeysInJournal(next)))
  {
    hide Journal.Readable, EventKey;
    forall key | key in outcomes.journalled + KeysInJournal(next)
      ensures Delivered(key, outbox, outcomes.accepted) || Waiting(key, next)
    {
      if key in outcomes.journalled {
        assert Delivered(key, outbox, outcomes.accepted) || Waiting(key, j);
      }
    }
  }

  lemma ReservingDelivers(w: World, a: Action)
    requires Sound(w) && Delivers(w) && Enabled(w, a) && (Reserves(a) || a.Commit?)
    ensures Delivers(Apply(w, a))
  {
    hide EventKey, Spending.Forgotten, Spending.Reopened, Spending.Granted, LineageOk;
    var j, next := w.disk.journal, Apply(w, a).disk.journal;
    if a.o.Lands() {
      if a.Commit? {
        CommitFileShape(j, w.proc.phase.source, w.proc.phase.answer, a.now, a.reason, a.responseClass, a.readable);
      }
      StepKeepsClosure(w, a);
      JournalReplacement(j, next, w.disk.outbox, w.outcomes);
    }
  }

  lemma RewritingDelivers(w: World, a: Action)
    requires Sound(w) && Delivers(w) && Enabled(w, a) && (Rewrites(a) || Drops(a)) && !LosesOutcome(w, a)
    ensures Delivers(Apply(w, a))
  {
    hide EventKey, LineageOk, Budget.StopRecord, Budget.WithContinuation, CorruptShape;
    var j, next := w.disk.journal, Apply(w, a).disk.journal;
    if a.o.Lands() {
      if a.MarkUnknown? {
        Budget.SchedulingIsReadable(j.attempt, AmbiguityReplay, a.now + RECOVERY_WINDOW, a.now, j.state.source,
                                    a.reason);
      }
      JournalReplacement(j, next, w.disk.outbox, w.outcomes);
    }
  }

  lemma OutboxStepDelivers(w: World, a: Action)
    requires Sound(w) && Delivers(w) && Enabled(w, a) && (a.Enqueue? || a.Accept? || a.Acknowledge?)
    ensures Delivers(Apply(w, a))
  {
    hide EventKey, Journal.Readable, Origins;
    match a {
      case Enqueue(record, o) => EnqueueKeepsUnique(w.disk.outbox, record);
      case Acknowledge(key, o) =>
        AcknowledgeRemovesOneKey(w.disk.outbox, key);
        AcknowledgeKeepsUnique(w.disk.outbox, key);
      case _ =>
    }
  }

  lemma ProcessStepDelivers(w: World, a: Action)
    requires Delivers(w) && Enabled(w, a) && !WritesJournal(a) && !a.Enqueue? && !a.Accept? && !a.Acknowledge?
    ensures Delivers(Apply(w, a))
  {
    hide DeliveryOk;
  }

  // Every step delivers, except exactly one that loses an outcome.
  lemma StepDelivers(w: World, a: Action)
    requires Sound(w) && Delivers(w) && Enabled(w, a)
    ensures Delivers(Apply(w, a)) <==> !LosesOutcome(w, a)
  {
    hide Apply, Enabled, Sound, Delivers, LosesOutcome;
    if LosesOutcome(w, a) { LosingDoesNotDeliver(w, a); }
    else if Reserves(a) || a.Commit? { ReservingDelivers(w, a); }
    else if Rewrites(a) || Drops(a) { RewritingDelivers(w, a); }
    else if a.Enqueue? || a.Accept? || a.Acknowledge? { OutboxStepDelivers(w, a); }
    else { ProcessStepDelivers(w, a); }
  }

  lemma LosingDoesNotDeliver(w: World, a: Action)
    requires Delivers(w) && Enabled(w, a) && LosesOutcome(w, a)
    ensures !Delivers(Apply(w, a))
  {
    hide EventKey, Journal.Readable;
    assert KeyOf(w.disk.journal.state) in w.outcomes.journalled;
  }

  lemma {:induction false} RunDelivers(w: World, acts: seq<Action>)
    requires Sound(w) && Delivers(w) && Legal(w, acts) && LosesNoOutcome(w, acts)
    ensures Sound(Exec(w, acts)) && Delivers(Exec(w, acts))
    decreases |acts|
  {
    hide Apply, Enabled, Sound, Delivers, LosesOutcome;
    if acts != [] {
      var n := |acts| - 1;
      RunDelivers(w, acts[..n]);
      StepKeepsSound(Exec(w, acts[..n]), acts[n]);
      StepDelivers(Exec(w, acts[..n]), acts[n]);
    }
  }

  // At every point of every run from every disk the service may start on, with crashes,
  // failing writes and imports anywhere: each terminal outcome ever durable in a readable
  // journal was accepted by the sink, waits in the outbox, or is the current journal's,
  // and the outbox keys are unique. It goes on so exactly until an import deletes a journal
  // that it could not read and whose outcome was not delivered.
  lemma OutcomesAreDeliveredAtLeastOnce(d: Disk, owner: Budget.RefreshOwner, accepted: set<string>, acts: seq<Action>)
    requires StartDisk(d, accepted) && Legal(StartWorld(d, owner, accepted), acts)
    requires LosesNoOutcome(StartWorld(d, owner, accepted), acts)
    ensures var v := Exec(StartWorld(d, owner, accepted), acts);
            AllDelivered(v) && forall a | Enabled(v, a) :: AllDelivered(Apply(v, a)) <==> !LosesOutcome(v, a)
  {
    hide Sound, Delivers, LosesOutcome, Apply, Enabled, StartDisk, StartWorld, Exec, Legal, AllDelivered;
    var w := StartWorld(d, owner, accepted);
    StartIsSound(d, owner, accepted);
    StartDelivers(d, owner, accepted);
    RunDelivers(w, acts);
    var v := Exec(w, acts);
    DeliversMeansAll(v);
    forall a | Enabled(v, a) ensures AllDelivered(Apply(v, a)) <==> !LosesOutcome(v, a) {
      StepDelivers(v, a);
      if LosesOutcome(v, a) {
        LosingMissesOne(v, a);
      } else {
        DeliversMeansAll(Apply(v, a));
      }
    }
  }

  ghost predicate AllDelivered(v: World) {
    && Unique(v.disk.outbox)
    && forall key <- v.outcomes.journalled ::
         Delivered(key, v.disk.outbox, v.outcomes.accepted) || Waiting(key, v.disk.journal)
  }

  lemma DeliversMeansAll(v: World)
    requires Delivers(v)
    ensures AllDelivered(v)
  {
  }

  lemma LosingMissesOne(v: World, a: Action)
    requires Delivers(v) && Enabled(v, a) && LosesOutcome(v, a)
    ensures !AllDelivered(Apply(v, a))
  {
    hide EventKey, Journal.Readable;
    assert KeyOf(v.disk.journal.state) in v.outcomes.journalled;
  }

  lemma StartDelivers(d: Disk, owner: Budget.RefreshOwner, accepted: set<string>)
    requires StartDisk(d, accepted)
    ensures Delivers(StartWorld(d, owner, accepted))
  {
    hide EventKey;
  }

  // An import that cannot read the journal it deletes loses exactly the outcome that was
  // waiting there, and nothing else.
  lemma BlindImportLosesTheWaitingOutcome(w: World, a: Action, key: string)
    requires Sound(w) && Delivers(w) && Enabled(w, a) && a.Supersede? && a.o.Lands() && key in w.outcomes.journalled
    ensures var v := Apply(w, a);
            Delivered(key, v.disk.outbox, v.outcomes.accepted) || Waiting(key, v.disk.journal) <==>
            Delivered(key, w.disk.outbox, w.outcomes.accepted)
  {
    hide EventKey, Journal.Readable, Origins;
  }
}
