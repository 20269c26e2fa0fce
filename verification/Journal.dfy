// The durable rotation journal (auth_session/store.py): its attempt record, the v3
// payload, the validity rules of the reader and the v2 migration. A JSON object is
// a record of fields, and an ISO timestamp is an integer number of seconds.
module Journal {
  import opened Wrappers
  import opened StateMachine

  datatype AttemptKind = Normal | Recovery(lane: Lane)
  datatype Continuation = Scheduled(lane: Lane) | Stopped

  datatype RotationAttempt = RotationAttempt(
    rotationId: string,
    kind: AttemptKind,
    dispatchCount: int,
    safeRetries: int,
    validationRetries: int,
    ambiguityReplays: int,
    deadline: Option<int>,
    continuation: Option<Continuation>,
    ownerBootId: Option<string>,
    ownerPid: Option<int>,
    ownerStartTicks: Option<string>,
    nextAttemptAt: Option<int>,
    cap: int,
    responseClass: Option<string>,
    stopReason: Option<string>)
  {
    function Retries(): int {
      safeRetries + validationRetries + ambiguityReplays
    }

    function LaneCount(lane: Lane): int {
      match lane
      case SafeRetry => safeRetries
      case ValidationRecovery => validationRetries
      case AmbiguityReplay => ambiguityReplays
    }

    predicate IsScheduled() {
      continuation.Some? && continuation.value.Scheduled?
    }

    predicate IsStopped() {
      continuation == Some(Stopped)
    }
  }

  // RotationAttempt(source, "normal", 1): the defaults of the dataclass.
  function FreshAttempt(source: Revision, dispatchCount: int): RotationAttempt {
    RotationAttempt(source, Normal, dispatchCount, 0, 0, 0, None, None, None, None, None, None,
                    TOTAL_DISPATCH_CAP, None, None)
  }

  // ------------------------------------------------------------------ payloads

  datatype Json = Absent | Null | Bool(b: bool) | Int(i: int) | Str(s: string) | Time(t: int) | Other {
    predicate IsNone() {
      Absent? || Null?
    }

    predicate IsOptionalText() {
      IsNone() || Str?
    }

    predicate IsOptionalInt() {
      IsNone() || Int?
    }

    predicate IsOptionalTime() {
      IsNone() || Time?
    }

    predicate IsNonEmptyText() {
      Str? && s != ""
    }

    function Text(): Option<string>
      requires IsOptionalText()
    {
      if Str? then Some(s) else None
    }

    function Number(): Option<int>
      requires IsOptionalInt()
    {
      if Int? then Some(i) else None
    }

    function Moment(): Option<int>
      requires IsOptionalTime()
    {
      if Time? then Some(t) else None
    }
  }

  function TextJson(o: Option<string>): Json {
    match o case None => Null case Some(s) => Str(s)
  }

  function IntJson(o: Option<int>): Json {
    match o case None => Null case Some(i) => Int(i)
  }

  function TimeJson(o: Option<int>): Json {
    match o case None => Null case Some(t) => Time(t)
  }

  datatype JournalPayload = JournalPayload(
    version: Json,
    sourceRevision: Json,
    state: Json,
    replacement: Json,
    reason: Json,
    successor: Json,
    outcome: Json,
    eventKey: Json,
    outboxEnqueued: Json,
    rotationId: Json,
    attemptKind: Json,
    dispatchCount: Json,
    safeRetries: Json,
    validationRetries: Json,
    ambiguityReplays: Json,
    deadline: Json,
    continuation: Json,
    ownerBootId: Json,
    ownerPid: Json,
    ownerStartTicks: Json,
    nextAttemptAt: Json,
    cap: Json,
    responseClass: Json,
    stopReason: Json)

  const JOURNAL_VERSION := 3
  const PREVIOUS_JOURNAL_VERSION := 2

  function StateName(state: RotationState): string
    requires !state.Ready?
  {
    match state
    case Reserved(_) => "RESERVED"
    case Requested(_) => "REQUESTED"
    case Rotated(_, _, _) => "ROTATED"
    case Rejected(_, _) => "REJECTED"
    case OutcomeUnknown(_, _) => "OUTCOME_UNKNOWN"
  }

  function LaneName(lane: Lane): string {
    match lane
    case SafeRetry => "safe_retry"
    case ValidationRecovery => "validation_recovery"
    case AmbiguityReplay => "ambiguity_replay"
  }

  function KindName(kind: AttemptKind): string {
    match kind case Normal => "normal" case Recovery(lane) => LaneName(lane)
  }

  function ContinuationJson(continuation: Option<Continuation>): Json {
    match continuation
    case None => Null
    case Some(Scheduled(lane)) => Str(LaneName(lane))
    case Some(Stopped) => Str("stop")
  }

  function ParseLane(name: string): Option<Lane> {
    if name == "safe_retry" then Some(SafeRetry)
    else if name == "validation_recovery" then Some(ValidationRecovery)
    else if name == "ambiguity_replay" then Some(AmbiguityReplay)
    else None
  }

  function ParseKind(name: string): Option<AttemptKind> {
    if name == "normal" then Some(Normal)
    else match ParseLane(name) case None => None case Some(lane) => Some(Recovery(lane))
  }

  // The outer option says whether the field is acceptable at all.
  function ParseContinuation(value: Json): Option<Option<Continuation>> {
    if value.IsNone() then Some(None)
    else if value == Str("stop") then Some(Some(Stopped))
    else if value.Str? then
      match ParseLane(value.s) case None => None case Some(lane) => Some(Some(Scheduled(lane)))
    else None
  }

  // _journal_payload: what a write puts in the file. READY is never persisted.
  function PayloadOf(state: RotationState, enqueued: bool, attempt: RotationAttempt): JournalPayload
    requires !state.Ready?
  {
    JournalPayload(
      Int(JOURNAL_VERSION),
      Str(state.source),
      Str(StateName(state)),
      if state.Rotated? then Str(state.cookie) else Null,
      if state.Rejected? || state.OutcomeUnknown? then Str(state.reason) else Null,
      if state.Rotated? then Str(state.successor) else Null,
      if state.Terminal() then Str(OutcomeName(OutcomeOf(state))) else Null,
      if state.Terminal() then Str(KeyOf(state)) else Null,
      Bool(if state.Terminal() then enqueued else false),
      Str(attempt.rotationId),
      Str(KindName(attempt.kind)),
      Int(attempt.dispatchCount),
      Int(attempt.safeRetries),
      Int(attempt.validationRetries),
      Int(attempt.ambiguityReplays),
      TimeJson(attempt.deadline),
      ContinuationJson(attempt.continuation),
      TextJson(attempt.ownerBootId),
      IntJson(attempt.ownerPid),
      TextJson(attempt.ownerStartTicks),
      TimeJson(attempt.nextAttemptAt),
      Int(attempt.cap),
      TextJson(attempt.responseClass),
      TextJson(attempt.stopReason))
  }

  // -------------------------------------------------------------------- reader

  datatype JournalLoad =
    | JournalAbsent
    | JournalCorrupt
    | JournalIoFailure
    | JournalLoaded(state: RotationState, enqueued: bool, attempt: RotationAttempt, migrated: bool)

  function ParseJournal(p: JournalPayload): JournalLoad {
    if p.version == Int(PREVIOUS_JOURNAL_VERSION) then ParseV2(p)
    else if p.version != Int(JOURNAL_VERSION) then JournalCorrupt
    else if !ScalarFieldsAreValid(p) then JournalCorrupt
    else match ParseAttempt(p)
      case None => JournalCorrupt
      case Some(attempt) =>
        if !AttemptFitsRawState(p.state, attempt) || !OutcomeIsKnown(p.outcome) then JournalCorrupt
        else match ParseState(p)
          case None => JournalCorrupt
          case Some(state) => JournalLoaded(state, p.outboxEnqueued.b, attempt, false)
  }

  predicate ScalarFieldsAreValid(p: JournalPayload) {
    && p.sourceRevision.IsNonEmptyText()
    && p.replacement.IsOptionalText()
    && p.reason.IsOptionalText()
    && p.successor.IsOptionalText()
    && p.eventKey.IsOptionalText()
    && p.outboxEnqueued.Bool?
  }

  predicate OutcomeIsKnown(outcome: Json) {
    outcome.IsNone() || outcome in {Str("rotated"), Str("rejected"), Str("outcome_unknown")}
  }

  function ParseAttempt(p: JournalPayload): Option<RotationAttempt> {
    if !(p.rotationId.Str? && p.attemptKind.Str? && p.dispatchCount.Int? && p.safeRetries.Int?
         && p.validationRetries.Int? && p.ambiguityReplays.Int?)
    then None
    else if !(p.deadline.IsOptionalTime() && p.ownerBootId.IsOptionalText() && p.ownerPid.IsOptionalInt()
              && p.ownerStartTicks.IsOptionalText() && p.nextAttemptAt.IsOptionalTime() && p.cap.Int?
              && p.responseClass.IsOptionalText() && p.stopReason.IsOptionalText())
    then None
    else match (ParseKind(p.attemptKind.s), ParseContinuation(p.continuation))
      case (Some(kind), Some(continuation)) =>
        var attempt := RotationAttempt(
          p.rotationId.s, kind, p.dispatchCount.i, p.safeRetries.i, p.validationRetries.i, p.ambiguityReplays.i,
          p.deadline.Moment(), continuation, p.ownerBootId.Text(), p.ownerPid.Number(), p.ownerStartTicks.Text(),
          p.nextAttemptAt.Moment(), p.cap.i, p.responseClass.Text(), p.stopReason.Text());
        if AttemptIsValid(attempt) then Some(attempt) else None
      case _ => None
  }

  predicate OwnerIsAbsent(a: RotationAttempt) {
    a.ownerBootId.None? && a.ownerPid.None? && a.ownerStartTicks.None?
  }

  predicate OwnerIsComplete(a: RotationAttempt) {
    && a.ownerBootId.Some? && a.ownerBootId.value != ""
    && a.ownerPid.Some? && a.ownerPid.value > 0
    && a.ownerStartTicks.Some? && a.ownerStartTicks.value != ""
  }

  predicate AttemptIsValid(a: RotationAttempt) {
    && a.rotationId != ""
    && a.dispatchCount >= 0
    && 0 <= a.safeRetries <= SAFE_RETRY_LIMIT
    && 0 <= a.validationRetries <= VALIDATION_RETRY_LIMIT
    && 0 <= a.ambiguityReplays <= AMBIGUITY_REPLAY_LIMIT
    && a.cap == TOTAL_DISPATCH_CAP
    && a.dispatchCount <= a.cap
    && (a.dispatchCount == a.Retries() || a.dispatchCount == 1 + a.Retries())
    && (OwnerIsAbsent(a) || OwnerIsComplete(a))
  }

  predicate AttemptFitsRawState(raw: Json, a: RotationAttempt) {
    var ownerPresent := a.ownerBootId.Some?;
    && (ownerPresent ==> raw in {Str("RESERVED"), Str("REQUESTED")})
    && (a.IsScheduled() ==>
          && raw == Str("OUTCOME_UNKNOWN")
          && a.nextAttemptAt.Some? && a.deadline.Some? && a.stopReason.None?
          && a.nextAttemptAt.value <= a.deadline.value)
    && (a.IsStopped() ==>
          && raw in {Str("OUTCOME_UNKNOWN"), Str("REJECTED")}
          && a.nextAttemptAt.None?
          && a.stopReason.Some? && a.stopReason.value != ""
          && !ownerPresent)
    && (a.continuation.None? ==> a.nextAttemptAt.None? && a.stopReason.None?)
  }

  function ParseState(p: JournalPayload): Option<RotationState>
    requires ScalarFieldsAreValid(p)
  {
    var source := p.sourceRevision.s;
    var bare := p.replacement.IsNone() && p.successor.IsNone() && p.reason.IsNone();
    if p.state in {Str("RESERVED"), Str("REQUESTED")} then
      if bare && p.outcome.IsNone() && p.eventKey.IsNone() && !p.outboxEnqueued.b then
        Some(if p.state == Str("RESERVED") then Reserved(source) else Requested(source))
      else None
    else if p.state == Str("ROTATED") then
      if p.replacement.Str? && p.reason.IsNone() && p.successor.Str? && p.outcome == Str("rotated") then
        WithMatchingKey(Rotated(source, p.replacement.s, p.successor.s), p.eventKey)
      else None
    else if p.state == Str("REJECTED") then
      if p.replacement.IsNone() && p.reason.Str? && p.successor.IsNone() && p.outcome == Str("rejected") then
        WithMatchingKey(Rejected(source, p.reason.s), p.eventKey)
      else None
    else if p.state == Str("OUTCOME_UNKNOWN") then
      if p.replacement.IsNone() && p.reason.Str? && p.successor.IsNone() && p.outcome == Str("outcome_unknown") then
        WithMatchingKey(OutcomeUnknown(source, p.reason.s), p.eventKey)
      else None
    else None
  }

  function WithMatchingKey(state: RotationState, key: Json): Option<RotationState>
    requires state.Terminal()
  {
    if key == Str(KeyOf(state)) then Some(state) else None
  }

  // --------------------------------------------------------------- v2 migration

  const V2_IN_FLIGHT := "v2 in-flight refresh outcome is unknown"
  const V2_STOP := "v2-active-ambiguity"

  function ParseV2(p: JournalPayload): JournalLoad {
    var flag := if p.outboxEnqueued == Absent then Bool(false) else p.outboxEnqueued;
    var active := p.state in {Str("RESERVED"), Str("REQUESTED")};
    var terminalFields := !(p.replacement.IsNone() && p.reason.IsNone() && p.successor.IsNone()
                            && p.outcome.IsNone() && p.eventKey.IsNone());
    if !p.sourceRevision.IsNonEmptyText() || !flag.Bool? || (active && terminalFields) then JournalCorrupt
    else
      var source := p.sourceRevision.s;
      var requested := p.state == Str("REQUESTED");
      var parked := requested || p.state == Str("OUTCOME_UNKNOWN");
      var attempt := FreshAttempt(source, if requested then 1 else 0).(
        cap := if requested then 1 else 6,
        continuation := if parked then Some(Stopped) else None,
        stopReason := if parked then Some(V2_STOP) else None);
      match ParseV2State(p, source)
      case None => JournalCorrupt
      case Some(state) => JournalLoaded(state, flag.b, attempt, true)
  }

  function ParseV2State(p: JournalPayload, source: Revision): Option<RotationState> {
    if p.state == Str("RESERVED") then Some(Reserved(source))
    else if p.state == Str("REQUESTED") then Some(OutcomeUnknown(source, V2_IN_FLIGHT))
    else if p.state == Str("ROTATED") then
      if p.replacement.Str? && p.successor.Str? then Some(Rotated(source, p.replacement.s, p.successor.s)) else None
    else if p.state == Str("REJECTED") then
      if p.reason.Str? then Some(Rejected(source, p.reason.s)) else None
    else if p.state == Str("OUTCOME_UNKNOWN") then
      if p.reason.Str? then Some(OutcomeUnknown(source, p.reason.s)) else None
    else None
  }

  // ----------------------------------------------------- what the reader accepts

  // The reader's rules on typed values, with no reference to the payload.
  predicate Readable(state: RotationState, a: RotationAttempt) {
    && !state.Ready?
    && state.source != ""
    && AttemptIsValid(a)
    && (a.ownerBootId.Some? ==> state.Active())
    && (a.IsScheduled() ==>
          && state.OutcomeUnknown?
          && a.nextAttemptAt.Some? && a.deadline.Some? && a.stopReason.None?
          && a.nextAttemptAt.value <= a.deadline.value)
    && (a.IsStopped() ==>
          && (state.OutcomeUnknown? || state.Rejected?)
          && a.nextAttemptAt.None?
          && a.stopReason.Some? && a.stopReason.value != "")
    && (a.continuation.None? ==> a.nextAttemptAt.None? && a.stopReason.None?)
  }

  // The rules in full: identity, counts inside their limits that add up with or without a
  // first request, an owner that is complete and only on an active journal, and a schedule
  // or a stop only where it makes sense.
  lemma ReaderRulesInFull(state: RotationState, a: RotationAttempt)
    ensures Readable(state, a) <==>
            && !state.Ready? && state.source != "" && a.rotationId != ""
            && 0 <= a.safeRetries <= 4 && 0 <= a.validationRetries <= 1 && 0 <= a.ambiguityReplays <= 1
            && a.cap == 6 && 0 <= a.dispatchCount <= 6
            && a.dispatchCount - (a.safeRetries + a.validationRetries + a.ambiguityReplays) in {0, 1}
            && (if a.ownerBootId.None? then a.ownerPid.None? && a.ownerStartTicks.None?
                else
                  && (state.Reserved? || state.Requested?) && a.ownerBootId != Some("")
                  && a.ownerPid.Some? && a.ownerPid.value >= 1
                  && a.ownerStartTicks.Some? && a.ownerStartTicks != Some(""))
            && (match a.continuation
                case None => a.nextAttemptAt.None? && a.stopReason.None?
                case Some(Scheduled(_)) =>
                  && state.OutcomeUnknown? && a.stopReason.None? && a.nextAttemptAt.Some? && a.deadline.Some?
                  && a.nextAttemptAt.value <= a.deadline.value
                case Some(Stopped) =>
                  && (state.OutcomeUnknown? || state.Rejected?) && a.nextAttemptAt.None?
                  && a.stopReason.Some? && a.stopReason != Some(""))
  {
  }

  lemma LaneNamesAreDistinct()
    ensures forall lane: Lane :: ParseLane(LaneName(lane)) == Some(lane) && LaneName(lane) != "stop"
    ensures forall kind: AttemptKind :: ParseKind(KindName(kind)) == Some(kind)
  {
    assert |"safe_retry"| == 10 && |"validation_recovery"| == 19 && |"ambiguity_replay"| == 16;
    assert |"normal"| == 6 && |"stop"| == 4;
  }

  lemma StateNamesAreDistinct(a: RotationState, b: RotationState)
    requires !a.Ready? && !b.Ready?
    ensures StateName(a) == StateName(b) <==>
            (a.Reserved? <==> b.Reserved?) && (a.Requested? <==> b.Requested?) && (a.Rotated? <==> b.Rotated?)
            && (a.Rejected? <==> b.Rejected?)
  {
    assert |"RESERVED"| == 8 && |"REQUESTED"| == 9 && |"ROTATED"| == 7 && |"REJECTED"| == 8
           && |"OUTCOME_UNKNOWN"| == 15;
    assert "RESERVED"[2] == 'S' && "REJECTED"[2] == 'J';
  }

  // The names as the reader compares them.
  lemma RawStateNames(state: RotationState)
    requires !state.Ready?
    ensures Str(StateName(state)) == Str("RESERVED") <==> state.Reserved?
    ensures Str(StateName(state)) == Str("REQUESTED") <==> state.Requested?
    ensures Str(StateName(state)) == Str("ROTATED") <==> state.Rotated?
    ensures Str(StateName(state)) == Str("REJECTED") <==> state.Rejected?
    ensures Str(StateName(state)) == Str("OUTCOME_UNKNOWN") <==> state.OutcomeUnknown?
  {
    StateNamesAreDistinct(state, Reserved(""));
    StateNamesAreDistinct(state, Requested(""));
    StateNamesAreDistinct(state, Rotated("", "", ""));
    StateNamesAreDistinct(state, Rejected("", ""));
    StateNamesAreDistinct(state, OutcomeUnknown("", ""));
  }

  lemma AttemptRoundTrip(state: RotationState, enqueued: bool, a: RotationAttempt)
    requires !state.Ready?
    ensures ParseAttempt(PayloadOf(state, enqueued, a)) == if AttemptIsValid(a) then Some(a) else None
  {
    LaneNamesAreDistinct();
    var p := PayloadOf(state, enqueued, a);
    assert ParseKind(p.attemptKind.s) == Some(a.kind);
    assert ParseContinuation(p.continuation) == Some(a.continuation);
  }

  lemma StateRoundTrip(state: RotationState, enqueued: bool, a: RotationAttempt)
    requires !state.Ready? && state.source != ""
    ensures ScalarFieldsAreValid(PayloadOf(state, enqueued, a))
    ensures ParseState(PayloadOf(state, enqueued, a)) == Some(state)
    ensures OutcomeIsKnown(PayloadOf(state, enqueued, a).outcome)
    ensures AttemptIsValid(a) ==> (AttemptFitsRawState(PayloadOf(state, enqueued, a).state, a) <==> Readable(state, a))
  {
    RawStateNames(state);
  }

  // A written journal loads back as the same state, flag and attempt exactly when
  // the reader's rules hold of it; otherwise it loads as corrupt.
  lemma JournalRoundTrip(state: RotationState, enqueued: bool, a: RotationAttempt)
    requires !state.Ready?
    ensures ParseJournal(PayloadOf(state, enqueued, a)) ==
            if Readable(state, a) then JournalLoaded(state, enqueued && state.Terminal(), a, false) else JournalCorrupt
  {
    AttemptRoundTrip(state, enqueued, a);
    if state.source != "" {
      StateRoundTrip(state, enqueued, a);
    }
  }

  // Whatever v3 payload the reader accepts, writing it back changes nothing.
  lemma ReaderAcceptsOnlyWritableJournals(p: JournalPayload)
    requires p.version == Int(JOURNAL_VERSION) && ParseJournal(p).JournalLoaded?
    ensures var l := ParseJournal(p);
            && !l.state.Ready?
            && Readable(l.state, l.attempt)
            && (l.enqueued ==> l.state.Terminal())
            && ParseJournal(PayloadOf(l.state, l.enqueued, l.attempt)) == l
  {
    var l := ParseJournal(p);
    RawStateNames(l.state);
    assert p.state == Str(StateName(l.state));
    JournalRoundTrip(l.state, l.enqueued, l.attempt);
  }

  // What an accepted v3 payload says, field by field: a terminal state carries its own
  // values, its outcome and its event key, an active one none of them.
  lemma AcceptedPayloadIsTyped(p: JournalPayload)
    requires p.version == Int(3) && ParseJournal(p).JournalLoaded?
    ensures var l := ParseJournal(p);
            && p.sourceRevision == Str(l.state.source) && p.outboxEnqueued == Bool(l.enqueued) && !l.migrated
            && (l.state.Reserved? ==> p.state == Str("RESERVED"))
            && (l.state.Requested? ==> p.state == Str("REQUESTED"))
            && (l.state.Active() ==>
                  && p.replacement.IsNone() && p.successor.IsNone() && p.reason.IsNone() && p.outcome.IsNone()
                  && p.eventKey.IsNone() && !l.enqueued)
            && (l.state.Terminal() ==> p.eventKey == Str(KeyOf(l.state)))
            && (l.state.Rotated? ==>
                  && p.state == Str("ROTATED") && p.outcome == Str("rotated") && p.reason.IsNone()
                  && p.replacement == Str(l.state.cookie) && p.successor == Str(l.state.successor))
            && (l.state.Rejected? ==>
                  && p.state == Str("REJECTED") && p.outcome == Str("rejected") && p.reason == Str(l.state.reason)
                  && p.replacement.IsNone() && p.successor.IsNone())
            && (l.state.OutcomeUnknown? ==>
                  && p.state == Str("OUTCOME_UNKNOWN") && p.outcome == Str("outcome_unknown")
                  && p.reason == Str(l.state.reason) && p.replacement.IsNone() && p.successor.IsNone())
  {
  }

  // The attempt of an accepted v3 payload is the one its fields spell out.
  lemma AcceptedAttemptIsTyped(p: JournalPayload)
    requires p.version == Int(3) && ParseJournal(p).JournalLoaded?
    ensures var a := ParseJournal(p).attempt;
            && p.rotationId == Str(a.rotationId) && p.dispatchCount == Int(a.dispatchCount) && p.cap == Int(a.cap)
            && p.safeRetries == Int(a.safeRetries) && p.validationRetries == Int(a.validationRetries)
            && p.ambiguityReplays == Int(a.ambiguityReplays)
            && (a.deadline.Some? ==> p.deadline == Time(a.deadline.value))
            && (a.nextAttemptAt.Some? ==> p.nextAttemptAt == Time(a.nextAttemptAt.value))
            && (a.ownerBootId.Some? ==> p.ownerBootId == Str(a.ownerBootId.value))
            && (a.ownerPid.Some? ==> p.ownerPid == Int(a.ownerPid.value))
            && (a.ownerStartTicks.Some? ==> p.ownerStartTicks == Str(a.ownerStartTicks.value))
            && (a.responseClass.Some? ==> p.responseClass == Str(a.responseClass.value))
            && (a.stopReason.Some? ==> p.stopReason == Str(a.stopReason.value))
            && (a.deadline.None? ==> p.deadline.IsNone()) && (a.nextAttemptAt.None? ==> p.nextAttemptAt.IsNone())
            && (a.ownerBootId.None? ==> p.ownerBootId.IsNone()) && (a.ownerPid.None? ==> p.ownerPid.IsNone())
            && (a.responseClass.None? ==> p.responseClass.IsNone()) && (a.stopReason.None? ==> p.stopReason.IsNone())
  {
    hide AttemptIsValid, AttemptFitsRawState, ParseState, OutcomeIsKnown;
  }

  // Which v2 payloads load, as what: an active one only without terminal values, a request
  // in flight as an unknown outcome that is stopped, and a terminal one with its own values.
  lemma V2LoadsExactly(p: JournalPayload)
    requires p.version == Int(2)
    ensures var l := ParseJournal(p);
            var bare := p.replacement.IsNone() && p.reason.IsNone() && p.successor.IsNone() && p.outcome.IsNone()
                        && p.eventKey.IsNone();
            && (l.JournalLoaded? <==>
                  && p.sourceRevision.Str? && p.sourceRevision.s != ""
                  && (p.outboxEnqueued.Absent? || p.outboxEnqueued.Bool?)
                  && (|| (p.state in {Str("RESERVED"), Str("REQUESTED")} && bare)
                      || (p.state == Str("ROTATED") && p.replacement.Str? && p.successor.Str?)
                      || (p.state in {Str("REJECTED"), Str("OUTCOME_UNKNOWN")} && p.reason.Str?)))
            && (!l.JournalLoaded? ==> l.JournalCorrupt?)
            && (l.JournalLoaded? ==>
                  var source, requested := p.sourceRevision.s, p.state == Str("REQUESTED");
                  var stopped := requested || p.state == Str("OUTCOME_UNKNOWN");
                  && l.migrated && l.enqueued == (p.outboxEnqueued == Bool(true))
                  && (p.state == Str("RESERVED") ==> l.state == Reserved(source))
                  && (requested ==> l.state == OutcomeUnknown(source, "v2 in-flight refresh outcome is unknown"))
                  && (p.state == Str("ROTATED") ==> l.state == Rotated(source, p.replacement.s, p.successor.s))
                  && (p.state == Str("REJECTED") ==> l.state == Rejected(source, p.reason.s))
                  && (p.state == Str("OUTCOME_UNKNOWN") ==> l.state == OutcomeUnknown(source, p.reason.s))
                  && l.attempt ==
                     RotationAttempt(source, Normal, if requested then 1 else 0, 0, 0, 0, None,
                                     if stopped then Some(Stopped) else None, None, None, None, None,
                                     if requested then 1 else 6, None,
                                     if stopped then Some("v2-active-ambiguity") else None))
  {
    assert |"RESERVED"| == 8 && |"REQUESTED"| == 9 && |"ROTATED"| == 7 && |"REJECTED"| == 8
           && |"OUTCOME_UNKNOWN"| == 15;
    assert "RESERVED"[2] == 'S' && "REJECTED"[2] == 'J';
  }

  // A migrated v2 journal is never a request in flight and never schedules a retry,
  // and re-writing it under v3 stays readable exactly when it was not in flight.
  lemma V2MigrationIsConservative(p: JournalPayload)
    requires p.version == Int(PREVIOUS_JOURNAL_VERSION) && ParseJournal(p).JournalLoaded?
    ensures var l := ParseJournal(p);
            && l.migrated
            && !l.state.Ready? && !l.state.Requested?
            && !l.attempt.IsScheduled()
            && (l.state.OutcomeUnknown? ==> l.attempt.IsStopped())
            && (Readable(l.state, l.attempt) <==> p.state != Str("REQUESTED"))
            && (ParseJournal(PayloadOf(l.state, l.enqueued, l.attempt)) == JournalCorrupt
                <==> p.state == Str("REQUESTED"))
  {
    var l := ParseJournal(p);
    assert V2_STOP != "" by { assert |V2_STOP| > 0; }
    assert |"RESERVED"| == 8 && |"REQUESTED"| == 9 && |"ROTATED"| == 7 && |"REJECTED"| == 8
           && |"OUTCOME_UNKNOWN"| == 15;
    assert "RESERVED"[2] == 'S' && "REJECTED"[2] == 'J';
    JournalRoundTrip(l.state, l.enqueued, l.attempt);
  }
}
