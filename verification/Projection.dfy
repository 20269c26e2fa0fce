// What an observer makes of the stored credential and the journal, without touching them
// (auth_session/projection.py).
module Projection {
  import opened Wrappers
  import opened StateMachine
  import opened Journal
  import Budget
  import opened Protocol
  import opened Invariants
  import StoppedRevisions

  datatype AuthLoad =
    | AuthLoaded(auth: StoredAuth)
    | AuthAbsent
    | AuthCorrupt
    | AuthUnsupported
    | AuthIoFailure
    | AuthClockAnomaly

  datatype AuthProjection =
    | CredentialReady(auth: StoredAuth)
    | RotationReserved(auth: StoredAuth)
    | RotationInProgress(auth: StoredAuth)
    | RotationRecoveryAvailable(auth: StoredAuth)
    | RotationRecovering(auth: StoredAuth, state: RotationState)
    | RotationRecoveryExhausted(auth: StoredAuth, state: RotationState)
    | ReimportRequired(auth: StoredAuth, state: RotationState)
    | CredentialAbsent
    | CredentialCorrupt
    | CredentialUnsupported
    | CredentialIoFailure
    | CredentialClockAnomaly
    | JournalCorruptProjection
    | JournalIoFailureProjection
    | JournalImpossibleState

  // _project_matching_rotation_state
  function ProjectMatching(auth: StoredAuth, state: RotationState, attempt: RotationAttempt): AuthProjection
    requires !state.Ready?
  {
    match state
    case Reserved(_) => RotationReserved(auth)
    case Requested(_) => RotationInProgress(auth)
    case Rotated(_, _, _) => RotationRecoveryAvailable(auth)
    case OutcomeUnknown(_, _) =>
      if attempt.IsScheduled() then RotationRecovering(auth, state)
      else if attempt.IsStopped() then RotationRecoveryExhausted(auth, state)
      else ReimportRequired(auth, state)
    case Rejected(_, _) => ReimportRequired(auth, state)
  }

  // project_auth
  function ProjectAuth(auth: AuthLoad, journal: JournalLoad): AuthProjection {
    match auth
    case AuthAbsent => CredentialAbsent
    case AuthCorrupt => CredentialCorrupt
    case AuthUnsupported => CredentialUnsupported
    case AuthIoFailure => CredentialIoFailure
    case AuthClockAnomaly => CredentialClockAnomaly
    case AuthLoaded(stored) =>
      match journal
      case JournalAbsent => CredentialReady(stored)
      case JournalCorrupt => JournalCorruptProjection
      case JournalIoFailure => JournalIoFailureProjection
      case JournalLoaded(state, _, attempt, _) =>
        if state.Ready? then JournalImpossibleState
        else if state.source != stored.revision then CredentialReady(stored)
        else ProjectMatching(stored, state, attempt)
  }

  // network_credential; None is the projection error.
  function NetworkCredential(p: AuthProjection): Option<StoredAuth> {
    match p
    case CredentialReady(auth) => Some(auth)
    case RotationReserved(auth) => Some(auth)
    case RotationInProgress(auth) => Some(auth)
    case RotationRecovering(auth, _) => Some(auth)
    case RotationRecoveryExhausted(auth, _) => Some(auth)
    case ReimportRequired(auth, _) => Some(auth)
    case _ => None
  }

  // reauth_required of refresh_projection_status
  predicate ReauthRequired(p: AuthProjection) {
    match p
    case CredentialReady(_) => false
    case RotationReserved(_) => false
    case RotationInProgress(_) => false
    case RotationRecoveryAvailable(_) => false
    case RotationRecovering(_, _) => false
    case _ => true
  }

  // refresh_state of refresh_projection_status; None is null.
  function RefreshState(p: AuthProjection): Option<string> {
    match p
    case RotationReserved(_) => Some("reserved")
    case RotationInProgress(_) => Some("requested")
    case RotationRecoveryAvailable(_) => Some("rotated")
    case RotationRecovering(_, _) => Some("recovering")
    case RotationRecoveryExhausted(_, _) => Some("exhausted")
    case ReimportRequired(_, state) => Some(if state.Rejected? then "rejected" else "outcome_unknown")
    case _ => None
  }

  // The journal is about the stored credential.
  predicate Matching(stored: StoredAuth, j: JournalLoad) {
    j.JournalLoaded? && !j.state.Ready? && j.state.source == stored.revision
  }

  // What a stored credential and a journal are shown as: which credential is used, what the
  // refresh is said to be doing, and whether the operator has to import another one.
  lemma ProjectionIsExact(stored: StoredAuth, j: JournalLoad)
    ensures var p := ProjectAuth(AuthLoaded(stored), j);
            var matching, unusable := Matching(stored, j), !j.JournalAbsent? && (!j.JournalLoaded? || j.state.Ready?);
            var given := if j.JournalLoaded? then j.attempt.continuation else None;
            && NetworkCredential(p) ==
               (if unusable || (matching && j.state.Rotated?) then None else Some(stored))
            && (RefreshState(p) == Some("reserved") <==> matching && j.state.Reserved?)
            && (RefreshState(p) == Some("requested") <==> matching && j.state.Requested?)
            && (RefreshState(p) == Some("rotated") <==> matching && j.state.Rotated?)
            && (RefreshState(p) == Some("rejected") <==> matching && j.state.Rejected?)
            && (RefreshState(p) == Some("recovering") <==>
                  matching && j.state.OutcomeUnknown? && given.Some? && given.value.Scheduled?)
            && (RefreshState(p) == Some("exhausted") <==> matching && j.state.OutcomeUnknown? && given == Some(Stopped))
            && (RefreshState(p) == Some("outcome_unknown") <==> matching && j.state.OutcomeUnknown? && given.None?)
            && (RefreshState(p) == None <==> !matching)
            && (p.JournalCorruptProjection? <==> j.JournalCorrupt?)
            && (p.JournalIoFailureProjection? <==> j.JournalIoFailure?)
            && (p.JournalImpossibleState? <==> j.JournalLoaded? && j.state.Ready?)
            && (ReauthRequired(p) <==>
                  || unusable
                  || (matching && j.state.Rejected?)
                  || (matching && j.state.OutcomeUnknown? && given in {None, Some(Stopped)}))
  {
  }

  // A credential that cannot be loaded is used for nothing and has to be imported again.
  lemma UnloadedIsExact(auth: AuthLoad, j: JournalLoad)
    requires !auth.AuthLoaded?
    ensures var p := ProjectAuth(auth, j);
            && NetworkCredential(p).None? && RefreshState(p).None? && ReauthRequired(p)
            && (p.CredentialAbsent? <==> auth.AuthAbsent?) && (p.CredentialCorrupt? <==> auth.AuthCorrupt?)
            && (p.CredentialUnsupported? <==> auth.AuthUnsupported?)
            && (p.CredentialIoFailure? <==> auth.AuthIoFailure?)
            && (p.CredentialClockAnomaly? <==> auth.AuthClockAnomaly?)
  {
  }

  function Observed(d: Disk): AuthProjection
    requires d.auth.Some?
  {
    ProjectAuth(AuthLoaded(d.auth.value), d.journal.Read())
  }

  // --------------------------------------------------------------- observer safety

  predicate AwaitsInstall(d: Disk) {
    ContentIsCurrent(d) && d.journal.state.Rotated?
  }

  // On every sound disk, what an observer uses is the stored credential itself, unless the
  // journal is ROTATED for it or cannot be parsed; and the impossible projection is.
  lemma ObserverUsesTheCredential(w: World)
    requires Sound(w) && w.disk.auth.Some?
    ensures NetworkCredential(Observed(w.disk)) ==
            if AwaitsInstall(w.disk) || w.disk.journal.Read().JournalCorrupt? then None else w.disk.auth
    ensures Observed(w.disk) != JournalImpossibleState
  {
    hide Origins, ControlOk, AttemptIsValid;
  }

  // While a request for the stored credential is being sent or answered, it is shown as
  // requested, on every sound disk, and the credential stays in use.
  lemma RequestInFlightIsShown(w: World)
    requires Sound(w) && InExchange(w.proc.phase) && w.disk.Current(w.proc.phase.source)
    ensures RefreshState(Observed(w.disk)) == Some("requested") && NetworkCredential(Observed(w.disk)) == w.disk.auth
  {
    hide Origins, AttemptIsValid;
  }

  ghost predicate WritesReadably(w: World, acts: seq<Action>)
    requires Legal(w, acts)
    decreases |acts|
  {
    acts == [] || (var n := |acts| - 1;
                   WritesReadably(w, acts[..n]) && !StoppedRevisions.CorruptingWrite(Exec(w, acts[..n]), acts[n]))
  }

  lemma {:induction false} JournalStaysReadable(w: World, acts: seq<Action>)
    requires Sound(w) && Legal(w, acts) && WritesReadably(w, acts) && !w.disk.journal.Read().JournalCorrupt?
    ensures Sound(Exec(w, acts)) && !Exec(w, acts).disk.journal.Read().JournalCorrupt?
    decreases |acts|
  {
    hide Apply, Enabled, Sound, StoppedRevisions.CorruptingWrite, JournalFile.Read;
    if acts != [] {
      var n := |acts| - 1;
      JournalStaysReadable(w, acts[..n]);
      StepKeepsSound(Exec(w, acts[..n]), acts[n]);
      StoppedRevisions.OnlyTwoWritesCorrupt(Exec(w, acts[..n]), acts[n]);
    }
  }

  // Over every run from a readable disk that takes neither of the two corrupting writes,
  // an observer gets the current credential exactly while no successor awaits installation.
  lemma ObserversAreServed(d: Disk, owner: Budget.RefreshOwner, accepted: set<string>, acts: seq<Action>)
    requires StartDisk(d, accepted) && d.journal != Garbage && Legal(StartWorld(d, owner, accepted), acts)
    requires WritesReadably(StartWorld(d, owner, accepted), acts)
    requires Exec(StartWorld(d, owner, accepted), acts).disk.auth.Some?
    ensures var now := Exec(StartWorld(d, owner, accepted), acts).disk;
            && (NetworkCredential(Observed(now)) == now.auth <==> !AwaitsInstall(now))
            && Observed(now) != JournalImpossibleState
  {
    hide Sound, Exec, Legal, WritesReadably, Observed, AwaitsInstall;
    StartIsSound(d, owner, accepted);
    JournalStaysReadable(StartWorld(d, owner, accepted), acts);
    ObserverUsesTheCredential(Exec(StartWorld(d, owner, accepted), acts));
  }

  // ------------------------------------------------------- telling the operator

  // Every unknown outcome on disk was either scheduled for recovery or stopped.
  predicate Decided(j: JournalFile) {
    j.HasContent() && j.state.OutcomeUnknown? ==> j.attempt.continuation.Some?
  }

  lemma StepKeepsDecided(w: World, a: Action)
    requires Sound(w) && Decided(w.disk.journal) && Enabled(w, a)
    ensures Decided(Apply(w, a).disk.journal)
  {
    hide Origins, ControlOk, ClosureOk, Readable, KeysInJournal, EventKey, AttemptFor, Spending.Forgotten;
  }

  lemma {:induction false} RunKeepsDecided(w: World, acts: seq<Action>)
    requires Sound(w) && Decided(w.disk.journal) && Legal(w, acts)
    ensures Sound(Exec(w, acts)) && Decided(Exec(w, acts).disk.journal)
    decreases |acts|
  {
    hide Apply, Enabled, Sound, Decided;
    if acts != [] {
      var n := |acts| - 1;
      RunKeepsDecided(w, acts[..n]);
      StepKeepsSound(Exec(w, acts[..n]), acts[n]);
      StepKeepsDecided(Exec(w, acts[..n]), acts[n]);
    }
  }

  lemma StoppedIsReported(w: World)
    requires Sound(w) && Decided(w.disk.journal) && w.disk.auth.Some? && !w.proc.importing
    ensures ReauthRequired(Observed(w.disk)) <==> StoppedRevisions.GivenUp(w, w.disk.auth.value.revision)
  {
    hide Origins, ControlOk, AttemptIsValid;
  }

  // The operator is asked to import a credential exactly when the current revision is
  // stopped, after which no exchange can ever be sent for it.
  lemma ReauthIsRequiredExactlyWhenStopped(d: Disk, owner: Budget.RefreshOwner, accepted: set<string>,
                                           acts: seq<Action>)
    requires StartDisk(d, accepted) && Legal(StartWorld(d, owner, accepted), acts)
    requires Exec(StartWorld(d, owner, accepted), acts).disk.auth.Some?
    requires !Exec(StartWorld(d, owner, accepted), acts).proc.importing
    ensures var v := Exec(StartWorld(d, owner, accepted), acts);
            ReauthRequired(Observed(v.disk)) <==> StoppedRevisions.GivenUp(v, v.disk.auth.value.revision)
  {
    var w := StartWorld(d, owner, accepted);
    StartIsSound(d, owner, accepted);
    hide Sound, Exec, Legal, StoppedRevisions.GivenUp, Observed;
    RunKeepsDecided(w, acts);
    StoppedIsReported(Exec(w, acts));
  }
}
