// What happens to a successor once the server has rotated the cookie: it is never lost
// while the process lives, and no late step brings an older credential back.
module Successors {
  import opened Wrappers
  import opened StateMachine
  import Journal
  import Budget
  import opened Protocol
  import opened Invariants

  // In a durable ROTATED journal.
  predicate Durable(d: Disk, s: Successor) {
    d.journal.HasContent() && d.journal.state == s.State()
  }

  // In the running commit or in the loop's buffer.
  predicate InMemory(p: Process, s: Successor) {
    PhaseSuccessor(p.phase) == Some(s) || p.retained == Some(s)
  }

  // Installed in the credential file, now or before a later replacement.
  predicate Arrived(d: Disk, past: set<Revision>, s: Successor) {
    d.Current(s.revision) || s.revision in past
  }

  predicate KeptIn(d: Disk, p: Process, past: set<Revision>, s: Successor) {
    && (d.Current(s.revision) ==> d.auth.value.credential == Cookie(s.cookie))
    && (Arrived(d, past, s) || (d.Current(s.source) && (Durable(d, s) || InMemory(p, s))))
  }

  predicate Kept(w: World, s: Successor) {
    KeptIn(w.disk, w.proc, w.line.past, s)
  }

  // The steps that drop memory: a crash, an exception nothing catches, and a credential
  // file that cannot be read, which counts as superseded.
  predicate DropsMemory(a: Action) {
    a.Crash? || a.Unwind? || (a.Abandon? && a.fault) || (a.Forget? && a.fault)
  }

  predicate ImportLands(a: Action) {
    a.Import? && a.o.Lands()
  }

  lemma AnswerIsKept(w: World, a: Action)
    requires Sound(w) && Enabled(w, a) && a.Answer? && a.answer.Succeeded? && w.disk.Current(w.proc.phase.source)
    ensures Kept(Apply(w, a), Successor(w.proc.phase.source, a.answer.cookie, a.answer.successor))
  {
    hide ControlOk, ClosureOk;
  }

  lemma ReservingStepKeeps(w: World, a: Action, s: Successor)
    requires Sound(w) && Enabled(w, a) && Kept(w, s) && Reserves(a)
    ensures Kept(Apply(w, a), s)
  {
    hide ClosureOk, KeysInJournal, AttemptFor, Journal.Readable, EventKey, Spending.Forgotten, Spending.Reopened,
         Spending.Granted, Budget.Owned, Budget.FirstAttempt, Budget.NextRecoveryAttempt;
  }

  lemma RewritingStepKeeps(w: World, a: Action, s: Successor)
    requires Sound(w) && Enabled(w, a) && Kept(w, s) && Rewrites(a)
    ensures Kept(Apply(w, a), s)
  {
    hide Origins, ClosureOk, KeysInJournal, Budget.WithContinuation, Budget.StopRecord, Journal.Readable, EventKey;
  }

  lemma DroppingStepKeeps(w: World, a: Action, s: Successor)
    requires Sound(w) && Enabled(w, a) && Kept(w, s) && Drops(a)
    ensures Kept(Apply(w, a), s)
  {
    hide ClosureOk, KeysInJournal, Journal.Readable, EventKey;
  }

  lemma CommitKeeps(w: World, a: Action, s: Successor)
    requires Sound(w) && Enabled(w, a) && Kept(w, s) && a.Commit?
    ensures Kept(Apply(w, a), s)
  {
    hide ClosureOk, KeysInJournal, CommitFile, LineageOk, Spending.Forgotten;
    CommitFileShape(w.disk.journal, w.proc.phase.source, w.proc.phase.answer, a.now, a.reason, a.responseClass,
                    a.readable);
  }

  lemma ProcessStepKeeps(w: World, a: Action, s: Successor)
    requires Sound(w) && Enabled(w, a) && Kept(w, s) && !WritesJournal(a) && !DropsMemory(a) && !ImportLands(a)
    ensures Kept(Apply(w, a), s)
  {
    hide ClosureOk, EventKey;
  }

  // Dropping memory loses the successor exactly when it was neither durable nor installed.
  lemma DroppingMemoryLosesExactly(w: World, a: Action, s: Successor)
    requires Sound(w) && Enabled(w, a) && Kept(w, s) && DropsMemory(a)
    ensures Kept(Apply(w, a), s) <==> Durable(w.disk, s) || Arrived(w.disk, w.line.past, s)
  {
    hide ClosureOk, Origins, SuccessorControl;
  }

  // An import replaces a source whose successor had not arrived yet, and nothing later.
  lemma ImportSupersedesExactly(w: World, a: Action, s: Successor)
    requires Sound(w) && Enabled(w, a) && Kept(w, s) && ImportLands(a)
    ensures Kept(Apply(w, a), s) <==> Arrived(w.disk, w.line.past, s)
  {
    hide ClosureOk, ControlOk;
    assert s.revision in w.line.used;
  }

  // The steps that lose a successor not installed yet: an import of another credential, and
  // dropping memory before a journal holds it.
  predicate LosesSuccessor(w: World, a: Action, s: Successor) {
    && !Arrived(w.disk, w.line.past, s)
    && (ImportLands(a) || (DropsMemory(a) && !Durable(w.disk, s)))
  }

  // Every step keeps the successor, except exactly one that loses it.
  lemma StepKeepsSuccessor(w: World, a: Action, s: Successor)
    requires Sound(w) && Enabled(w, a) && Kept(w, s)
    ensures Kept(Apply(w, a), s) <==> !LosesSuccessor(w, a, s)
  {
    hide Apply, Enabled, Sound, Kept;
    if ImportLands(a) { ImportSupersedesExactly(w, a, s); }
    else if DropsMemory(a) { DroppingMemoryLosesExactly(w, a, s); }
    else if a.Commit? { CommitKeeps(w, a, s); }
    else if Reserves(a) { ReservingStepKeeps(w, a, s); }
    else if Rewrites(a) { RewritingStepKeeps(w, a, s); }
    else if Drops(a) { DroppingStepKeeps(w, a, s); }
    else { ProcessStepKeeps(w, a, s); }
  }

  // No step of the run loses the successor; crashes and imports once it is safe do not.
  predicate NeverLoses(w: World, acts: seq<Action>, s: Successor)
    requires Legal(w, acts)
    decreases |acts|
  {
    acts == [] || (var n := |acts| - 1; NeverLoses(w, acts[..n], s) && !LosesSuccessor(Exec(w, acts[..n]), acts[n], s))
  }

  lemma {:induction false} RunKeepsSuccessor(w: World, acts: seq<Action>, s: Successor)
    requires Sound(w) && Kept(w, s) && Legal(w, acts) && NeverLoses(w, acts, s)
    ensures Sound(Exec(w, acts)) && Kept(Exec(w, acts), s)
    decreases |acts|
  {
    hide Apply, Enabled, Sound, Kept, LosesSuccessor;
    if acts != [] {
      var n := |acts| - 1;
      RunKeepsSuccessor(w, acts[..n], s);
      StepKeepsSound(Exec(w, acts[..n]), acts[n]);
      StepKeepsSuccessor(Exec(w, acts[..n]), acts[n], s);
    }
  }

  // Once an exchange for the current revision succeeded, then whatever writes fail, with
  // the old or the new content in place, and through crashes and imports that come once it
  // is safe: the replacement cookie was installed, or is in a durable ROTATED journal, or
  // is in memory. It goes on so exactly until a step loses it.
  lemma SuccessorIsNeverLost(d: Disk, owner: Budget.RefreshOwner, accepted: set<string>, before: seq<Action>,
                             cookie: string, t: Revision, later: seq<Action>)
    requires StartDisk(d, accepted) && Legal(StartWorld(d, owner, accepted), before)
    requires var v := Exec(StartWorld(d, owner, accepted), before);
             && Enabled(v, Answer(Succeeded(cookie, t)))
             && v.disk.Current(v.proc.phase.source)
             && Legal(Apply(v, Answer(Succeeded(cookie, t))), later)
             && NeverLoses(Apply(v, Answer(Succeeded(cookie, t))), later, Successor(v.proc.phase.source, cookie, t))
    ensures var v := Exec(StartWorld(d, owner, accepted), before);
            var end := Exec(Apply(v, Answer(Succeeded(cookie, t))), later);
            var s := Successor(v.proc.phase.source, cookie, t);
            && (end.disk.Current(t) ==> end.disk.auth.value.credential == Cookie(cookie))
            && (Arrived(end.disk, end.line.past, s)
                || (end.disk.Current(s.source) && (Durable(end.disk, s) || InMemory(end.proc, s))))
            && forall a | Enabled(end, a) :: Kept(Apply(end, a), s) <==> !LosesSuccessor(end, a, s)
  {
    var w := StartWorld(d, owner, accepted);
    var v, a := Exec(w, before), Answer(Succeeded(cookie, t));
    assert v.proc.phase.InFlight?;
    hide Sound, Apply, StartDisk, StartWorld, Exec, Legal, NeverLoses, LosesSuccessor, Enabled;
    StartIsSound(d, owner, accepted);
    RunKeepsSound(w, before);
    var s := Successor(v.proc.phase.source, cookie, t);
    AnswerIsKept(v, a);
    StepKeepsSound(v, a);
    RunKeepsSuccessor(Apply(v, a), later, s);
    var end := Exec(Apply(v, a), later);
    forall b | Enabled(end, b) ensures Kept(Apply(end, b), s) <==> !LosesSuccessor(end, b, s) {
      StepKeepsSuccessor(end, b, s);
    }
  }

  // ------------------------------------------------------------ newest revision wins

  // The credential file changes only by an import of a new revision, or by replacing
  // exactly the source of a successor with that successor's cookie.
  lemma CredentialChangesOnlyForward(w: World, a: Action)
    requires Sound(w) && Enabled(w, a) && Apply(w, a).disk.auth != w.disk.auth
    ensures var next := Apply(w, a).disk.auth;
            && next.Some?
            && ((a.Import? && next.value == a.imported && next.value.revision !in w.line.used)
                || (a.Install? && next.value.revision in w.line.minted
                    && var s := w.line.minted[next.value.revision];
                       w.disk.Current(s.source) && next.value.credential == Cookie(s.cookie)))
  {
    hide ControlOk, ClosureOk;
  }

  lemma PastOnlyGrows(w: World, a: Action)
    requires Enabled(w, a)
    ensures w.line.past <= Apply(w, a).line.past
    ensures forall r :: w.disk.Current(r) && !Apply(w, a).disk.Current(r) ==> r in Apply(w, a).line.past
  {
    hide KeysInJournal, CommitFile, AttemptFor;
  }

  lemma {:induction false} RunNeverReturnsToPast(w: World, acts: seq<Action>, r: Revision)
    requires Sound(w) && r in w.line.past && Legal(w, acts)
    ensures Sound(Exec(w, acts)) && r in Exec(w, acts).line.past && !Exec(w, acts).disk.Current(r)
    decreases |acts|
  {
    hide Apply, Enabled;
    if acts != [] {
      var n := |acts| - 1;
      RunNeverReturnsToPast(w, acts[..n], r);
      PastOnlyGrows(Exec(w, acts[..n]), acts[n]);
      StepKeepsSound(Exec(w, acts[..n]), acts[n]);
    }
  }

  lemma {:induction false} LeavingPutsInPast(w: World, acts: seq<Action>, r: Revision)
    requires Sound(w) && w.disk.Current(r) && Legal(w, acts) && !Exec(w, acts).disk.Current(r)
    ensures Sound(Exec(w, acts)) && r in Exec(w, acts).line.past
    decreases |acts|
  {
    hide Apply, Enabled, Sound;
    if acts != [] {
      var n := |acts| - 1;
      RunKeepsSound(w, acts);
      if !Exec(w, acts[..n]).disk.Current(r) {
        LeavingPutsInPast(w, acts[..n], r);
      }
      PastOnlyGrows(Exec(w, acts[..n]), acts[n]);
    }
  }

  // A revision that was replaced never becomes current again, in any interleaving of
  // imports with refresh, recovery and projection.
  lemma ReplacedRevisionNeverReturns(w: World, acts: seq<Action>, later: seq<Action>, r: Revision)
    requires Sound(w) && w.disk.Current(r) && Legal(w, acts) && !Exec(w, acts).disk.Current(r)
    requires Legal(Exec(w, acts), later)
    ensures !Exec(Exec(w, acts), later).disk.Current(r)
  {
    LeavingPutsInPast(w, acts, r);
    RunNeverReturnsToPast(Exec(w, acts), later, r);
  }

  // Some exchange sent with the source was answered with this cookie.
  predicate AnsweredIn(w: World, acts: seq<Action>, s: Successor)
    requires Legal(w, acts)
    decreases |acts|
  {
    acts != [] && (var n := |acts| - 1;
                   AnsweredIn(w, acts[..n], s)
                   || (acts[n] == Answer(Succeeded(s.cookie, s.revision))
                       && Exec(w, acts[..n]).proc.phase == InFlight(s.source)))
  }

  predicate ImportedIn(acts: seq<Action>, auth: StoredAuth) {
    exists a <- acts :: a.Import? && a.imported == auth
  }

  // The successor came with the starting disk, or from an exchange of this run.
  predicate Minted(w: World, acts: seq<Action>, s: Successor)
    requires Legal(w, acts)
  {
    (s.revision in w.line.minted && w.line.minted[s.revision] == s) || AnsweredIn(w, acts, s)
  }

  lemma MintsOnlyByAnswer(w: World, a: Action, t: Revision)
    requires Enabled(w, a) && t in Apply(w, a).line.minted
    ensures (t in w.line.minted && w.line.minted[t] == Apply(w, a).line.minted[t])
            || (w.proc.phase.InFlight? && Apply(w, a).line.minted[t].source == w.proc.phase.source
                && Apply(w, a).line.minted[t].revision == t
                && a == Answer(Succeeded(Apply(w, a).line.minted[t].cookie, t)))
  {
    hide KeysInJournal, CommitFile, AttemptFor;
  }

  lemma {:induction false} EveryMintWasAnswered(w: World, acts: seq<Action>, t: Revision)
    requires Sound(w) && Legal(w, acts) && t in Exec(w, acts).line.minted
    ensures Minted(w, acts, Exec(w, acts).line.minted[t])
    decreases |acts|
  {
    hide Apply, Enabled;
    if acts == [] {
      assert w.line.minted[t].revision == t;
    } else {
      var n := |acts| - 1;
      var v := Exec(w, acts[..n]);
      assert Exec(w, acts) == Apply(v, acts[n]);
      RunKeepsSound(w, acts[..n]);
      MintsOnlyByAnswer(v, acts[n], t);
      if t in v.line.minted && v.line.minted[t] == Exec(w, acts).line.minted[t] {
        EveryMintWasAnswered(w, acts[..n], t);
      }
    }
  }

  // Whatever is in the credential file was there at the start, was imported, or is
  // exactly the cookie a successful exchange answered, under its own revision.
  lemma {:induction false} CredentialProvenance(w: World, acts: seq<Action>)
    requires Sound(w) && Legal(w, acts) && Exec(w, acts).disk.auth.Some?
    ensures var auth := Exec(w, acts).disk.auth.value;
            || w.disk.auth == Some(auth)
            || ImportedIn(acts, auth)
            || (exists s :: Minted(w, acts, s) && auth == StoredAuth(s.revision, Cookie(s.cookie)))
    decreases |acts|
  {
    hide Apply, Enabled, Sound, AnsweredIn;
    if acts != [] {
      var n := |acts| - 1;
      var v, a := Exec(w, acts[..n]), acts[n];
      var auth := Exec(w, acts).disk.auth.value;
      assert Exec(w, acts) == Apply(v, a);
      RunKeepsSound(w, acts[..n]);
      if v.disk.auth == Exec(w, acts).disk.auth {
        CredentialProvenance(w, acts[..n]);
        EarlierStaysTrue(w, acts, auth);
      } else {
        CredentialChangesOnlyForward(v, a);
        if a.Import? {
          assert a in acts;
        } else {
          var s := v.line.minted[auth.revision];
          EveryMintWasAnswered(w, acts[..n], auth.revision);
          MintKey(v, auth.revision);
          assert Minted(w, acts, s) by { MintedStays(w, acts, s); }
        }
      }
    }
  }

  lemma MintKey(w: World, t: Revision)
    requires Sound(w) && t in w.line.minted
    ensures w.line.minted[t].revision == t
  {
  }

  lemma MintedStays(w: World, acts: seq<Action>, s: Successor)
    requires acts != [] && Legal(w, acts) && Minted(w, acts[..|acts| - 1], s)
    ensures Minted(w, acts, s)
  {
  }

  lemma EarlierStaysTrue(w: World, acts: seq<Action>, auth: StoredAuth)
    requires acts != [] && Legal(w, acts)
    ensures ImportedIn(acts[..|acts| - 1], auth) ==> ImportedIn(acts, auth)
    ensures forall s :: Minted(w, acts[..|acts| - 1], s) ==> Minted(w, acts, s)
  {
    forall s | Minted(w, acts[..|acts| - 1], s) ensures Minted(w, acts, s) {
      MintedStays(w, acts, s);
    }
  }
}
