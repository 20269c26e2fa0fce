// Revisions the coordinator has given up on, and the journals it can corrupt.
module StoppedRevisions {
  import opened StateMachine
  import Journal
  import opened Budget
  import opened Protocol
  import opened Invariants
  import Runs

  // The current revision's journal is REJECTED, a stopped OUTCOME_UNKNOWN, or unreadable,
  // and no import is half done.
  predicate GivenUp(w: World, r: Revision) {
    var j := w.disk.journal;
    && w.disk.Current(r) && !w.proc.importing
    && (j.Read().JournalCorrupt?
        || (j.HasContent() && j.state.source == r
            && (j.state.Rejected? || (j.state.OutcomeUnknown? && j.attempt.IsStopped()))))
  }

  predicate Gone(w: World, r: Revision) {
    r in w.line.past && !(w.proc.phase.Sending? && w.proc.phase.source == r)
  }

  lemma StoppedSendsNothing(w: World, a: Action, r: Revision)
    requires Sound(w) && Enabled(w, a) && (GivenUp(w, r) || Gone(w, r)) && a.Send?
    ensures w.proc.phase.source != r
  {
    hide Origins, Journal.Readable;
  }

  lemma JournalStepKeepsStopped(w: World, a: Action, r: Revision)
    requires Sound(w) && Enabled(w, a) && GivenUp(w, r) && WritesJournal(a)
    ensures GivenUp(Apply(w, a), r)
  {
    hide Origins, KeysInJournal, CommitFile, AttemptFor, WithContinuation, EventKey, Spending.Forgotten;
    if a.Stop? {
      StopShape(w.disk.journal.state, w.disk.journal.attempt);
    }
  }

  lemma OtherStepKeepsStopped(w: World, a: Action, r: Revision)
    requires Sound(w) && Enabled(w, a) && GivenUp(w, r) && !WritesJournal(a)
    ensures if a.Import? && a.o.Lands() then Gone(Apply(w, a), r) else GivenUp(Apply(w, a), r)
  {
    hide Origins, Journal.Readable, EventKey;
  }

  lemma StepKeepsGone(w: World, a: Action, r: Revision)
    requires Sound(w) && Enabled(w, a) && Gone(w, r)
    ensures Gone(Apply(w, a), r)
  {
    hide ControlOk, ClosureOk, KeysInJournal, CommitFile, AttemptFor, EventKey;
  }

  predicate NoImport(acts: seq<Action>) {
    forall a <- acts :: !(a.Import? && a.o.Lands())
  }

  // Once a revision is stopped, no exchange is ever sent for it again, whatever happens
  // next; and it stays stopped until an import lands.
  lemma {:induction false} StoppedForGood(w: World, acts: seq<Action>, r: Revision)
    requires Sound(w) && (GivenUp(w, r) || Gone(w, r)) && Legal(w, acts)
    ensures Sound(Exec(w, acts)) && (GivenUp(Exec(w, acts), r) || Gone(Exec(w, acts), r))
    ensures Runs.Posted(w, acts, r) == NONE
    ensures GivenUp(w, r) && NoImport(acts) ==> GivenUp(Exec(w, acts), r)
    decreases |acts|
  {
    hide Sound, Enabled, Apply, GivenUp, Gone, WritesJournal;
    if acts == [] {
      Runs.NothingPosted(w, r);
    } else {
      var n := |acts| - 1;
      var v, a := Exec(w, acts[..n]), acts[n];
      StoppedForGood(w, acts[..n], r);
      StepKeepsSound(v, a);
      if a.Send? { StoppedSendsNothing(v, a, r); }
      assert acts[..n] + [a] == acts;
      Runs.PostedNext(w, acts[..n], a, r);
      if Gone(v, r) { StepKeepsGone(v, a, r); }
      if GivenUp(v, r) {
        if WritesJournal(a) { JournalStepKeepsStopped(v, a, r); } else { OtherStepKeepsStopped(v, a, r); }
      }
    }
  }

  // ------------------------------------------------------------ what gets corrupted

  // The two writes the reader refuses: a stop record over an attempt that was scheduled,
  // and any rewrite of a journal migrated from an in-flight request of the previous version.
  predicate CorruptingWrite(w: World, a: Action)
    requires Enabled(w, a)
  {
    || (a.Stop? && a.o.Lands()
        && (w.disk.journal.attempt.IsScheduled() || w.disk.journal.attempt.cap != TOTAL_DISPATCH_CAP))
    || (a.MarkEnqueued? && a.o.Lands() && w.disk.journal.attempt.cap != TOTAL_DISPATCH_CAP)
  }

  lemma CommitWritesReadable(w: World, a: Action)
    requires Sound(w) && Enabled(w, a) && a.Commit? && a.o.Lands()
    ensures Apply(w, a).disk.journal.Loads()
  {
    hide KeysInJournal, Spending.Forgotten, AttemptFor, WithContinuation, LineageOk, Journal.Readable;
    var j, r, answer := w.disk.journal, w.proc.phase.source, w.proc.phase.answer;
    CarriedAttempt(j, r, a.readable);
    CommitFileShape(j, r, answer, a.now, a.reason, a.responseClass, a.readable);
    var file := CommitFile(j, r, answer, a.now, a.reason, a.responseClass, a.readable);
    CarriedAttemptIsReadable(AttemptFor(j, r, a.readable), file.state, if answer.Unclear? then answer.lane
                             else SafeRetry, a.now + RECOVERY_WINDOW, a.now, a.responseClass);
  }

  lemma ReservingWritesReadable(w: World, a: Action)
    requires Sound(w) && Enabled(w, a) && Reserves(a) && a.o.Lands()
    ensures Apply(w, a).disk.journal.Loads()
  {
    hide Origins, ControlOk, KeysInJournal, AttemptFor, Spending.Forgotten, Spending.Reopened, Spending.Granted,
         EventKey, Owned, NextRecoveryAttempt, FirstAttempt;
    StepKeepsClosure(w, a);
  }

  lemma RewritingWritesReadable(w: World, a: Action)
    requires Sound(w) && Enabled(w, a) && Rewrites(a) && w.disk.journal.Loads()
    ensures Apply(w, a).disk.journal.Loads() <==> !CorruptingWrite(w, a)
  {
    hide Origins, ControlOk, KeysInJournal, WithContinuation, StopRecord, EventKey;
    var j := w.disk.journal;
    if a.MarkUnknown? {
      SchedulingIsReadable(j.attempt, AmbiguityReplay, a.now + RECOVERY_WINDOW, a.now, j.state.source, a.reason);
    } else if a.Stop? {
      StopShape(j.state, j.attempt);
      if Journal.Readable(j.state, j.attempt) {
        StopRecordIsReadableExactlyWhen(j.state, j.attempt);
      }
    }
  }

  // Every write of the coordinator loads back, from a journal that loads or is absent,
  // except exactly those two.
  lemma OnlyTwoWritesCorrupt(w: World, a: Action)
    requires Sound(w) && Enabled(w, a) && !w.disk.journal.Read().JournalCorrupt?
    ensures Apply(w, a).disk.journal.Read().JournalCorrupt? <==> CorruptingWrite(w, a)
  {
    if a.Commit? {
      if a.o.Lands() { CommitWritesReadable(w, a); }
    } else if Reserves(a) {
      if a.o.Lands() { ReservingWritesReadable(w, a); }
    } else if Rewrites(a) {
      if w.disk.journal.Loads() { RewritingWritesReadable(w, a); }
    } else {
      assert Apply(w, a).disk.journal in {w.disk.journal, NoJournal};
    }
  }
}
