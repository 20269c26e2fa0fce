// The closed domain model of one cookie-refresh credential generation
// (auth_session/state_machine.py). Transitions are pure and perform no I/O.
module StateMachine {
  import opened Wrappers

  type Revision = string

  const TOTAL_DISPATCH_CAP: int := 6
  const SAFE_RETRY_LIMIT: int := 4
  const VALIDATION_RETRY_LIMIT: int := 1
  const AMBIGUITY_REPLAY_LIMIT: int := 1
  // Seconds.
  const RECOVERY_WINDOW: int := 600
  const SAFE_RETRY_DELAY: int := 10
  const VALIDATION_RETRY_DELAY: int := 30
  const AMBIGUITY_REPLAY_DELAY: int := 30

  datatype RotationState =
    | Ready(revision: Revision)
    | Reserved(source: Revision)
    | Requested(source: Revision)
    | Rotated(source: Revision, cookie: string, successor: Revision)
    | Rejected(source: Revision, reason: string)
    | OutcomeUnknown(source: Revision, reason: string)
  {
    predicate Terminal() {
      Rotated? || Rejected? || OutcomeUnknown?
    }

    predicate Active() {
      Reserved? || Requested?
    }
  }

  datatype Lane = SafeRetry | ValidationRecovery | AmbiguityReplay

  datatype RecoveryAuthorization = RecoveryAuthorization(
    lane: Lane,
    dispatchCount: int,
    safeRetries: int,
    validationRetries: int,
    ambiguityReplays: int,
    cap: int,
    deadlineOpen: bool,
    cooldownElapsed: bool)

  datatype RotationEvent =
    | Begin(source: Revision)
    | DispatchBegun
    | ExchangeSucceeded(cookie: string, successor: Revision)
    | ExchangeRejected(reason: string)
    | ExchangeOutcomeUnknown(reason: string)
    | Imported(revision: Revision)
    | Recover
    | AuthorizeRecoveryDispatch(authorization: RecoveryAuthorization)

  datatype Effect =
    | PersistJournal(state: RotationState)
    | DispatchExchange(source: Revision)
    | PersistReplacement(source: Revision, cookie: string, successor: Revision)
    | DeleteJournal
    | WaitForTerminalRevision(source: Revision)

  datatype Transition = Transition(state: RotationState, effects: seq<Effect>)

  // None is the programmer error raised for an impossible event.
  function Step(state: RotationState, event: RotationEvent): (t: Option<Transition>)
  {
    match state
    case Ready(_) => ReadyStep(event)
    case Reserved(source) => ReservedStep(source, event)
    case Requested(source) => RequestedStep(source, event)
    case Rotated(_, _, _) => RotatedStep(state, event)
    case Rejected(_, _) => TerminalStep(state, event)
    case OutcomeUnknown(_, _) => TerminalStep(state, event)
  }

  function ReadyStep(event: RotationEvent): Option<Transition>
  {
    match event
    case Begin(source) => Some(Transition(Reserved(source), [PersistJournal(Reserved(source))]))
    case Imported(revision) => Some(Transition(Ready(revision), []))
    case _ => None
  }

  function ReservedStep(source: Revision, event: RotationEvent): Option<Transition>
  {
    match event
    case DispatchBegun =>
      Some(Transition(Requested(source), [PersistJournal(Requested(source)), DispatchExchange(source)]))
    case Recover => Some(Transition(Ready(source), [DeleteJournal]))
    case Imported(revision) => Some(Transition(Ready(revision), [DeleteJournal]))
    case _ => None
  }

  function RequestedStep(source: Revision, event: RotationEvent): Option<Transition>
  {
    match event
    case ExchangeSucceeded(cookie, successor) =>
      var rotated := Rotated(source, cookie, successor);
      Some(Transition(rotated, [PersistJournal(rotated), PersistReplacement(source, cookie, successor)]))
    case ExchangeRejected(reason) =>
      Some(Transition(Rejected(source, reason), [PersistJournal(Rejected(source, reason))]))
    case ExchangeOutcomeUnknown(reason) =>
      Some(Transition(OutcomeUnknown(source, reason), [PersistJournal(OutcomeUnknown(source, reason))]))
    case Imported(revision) => Some(Transition(Ready(revision), [DeleteJournal]))
    case Recover =>
      var unknown := OutcomeUnknown(source, "interrupted after refresh dispatch");
      Some(Transition(unknown, [PersistJournal(unknown)]))
    case _ => None
  }

  function RotatedStep(state: RotationState, event: RotationEvent): Option<Transition>
    requires state.Rotated?
  {
    match event
    case Recover => Some(Transition(state, [PersistReplacement(state.source, state.cookie, state.successor)]))
    case Imported(revision) => Some(Transition(Ready(revision), [DeleteJournal]))
    case _ => None
  }

  function TerminalStep(state: RotationState, event: RotationEvent): Option<Transition>
    requires state.Rejected? || state.OutcomeUnknown?
  {
    match event
    case AuthorizeRecoveryDispatch(authorization) =>
      if state.OutcomeUnknown? && RecoveryDispatchIsAuthorized(authorization) then
        Some(Transition(Reserved(state.source), [PersistJournal(Reserved(state.source))]))
      else
        None
    case Imported(revision) => Some(Transition(Ready(revision), [DeleteJournal]))
    case Recover => Some(Transition(state, [WaitForTerminalRevision(state.source)]))
    case _ => None
  }

  function LaneLimit(lane: Lane): int {
    match lane
    case SafeRetry => SAFE_RETRY_LIMIT
    case ValidationRecovery => VALIDATION_RETRY_LIMIT
    case AmbiguityReplay => AMBIGUITY_REPLAY_LIMIT
  }

  predicate RecoveryDispatchIsAuthorized(e: RecoveryAuthorization) {
    var laneCount := match e.lane
      case SafeRetry => e.safeRetries
      case ValidationRecovery => e.validationRetries
      case AmbiguityReplay => e.ambiguityReplays;
    && e.deadlineOpen
    && e.cooldownElapsed
    && e.cap == TOTAL_DISPATCH_CAP
    && e.dispatchCount <= e.cap
    && e.dispatchCount == 1 + e.safeRetries + e.validationRetries + e.ambiguityReplays
    && 0 < laneCount <= LaneLimit(e.lane)
  }

  // Which events are possible: an import always, one beginning, one dispatch, one answer,
  // recovery of whatever was begun, and another dispatch of an unknown outcome while its
  // evidence stays inside the limits.
  lemma PossibleExactlyWhen(state: RotationState, event: RotationEvent)
    ensures Step(state, event).Some? <==>
            match event
            case Begin(_) => state.Ready?
            case DispatchBegun => state.Reserved?
            case ExchangeSucceeded(_, _) => state.Requested?
            case ExchangeRejected(_) => state.Requested?
            case ExchangeOutcomeUnknown(_) => state.Requested?
            case Imported(_) => true
            case Recover => !state.Ready?
            case AuthorizeRecoveryDispatch(e) =>
              && state.OutcomeUnknown? && e.deadlineOpen && e.cooldownElapsed && e.cap == 6 && e.dispatchCount <= 6
              && e.dispatchCount == 1 + e.safeRetries + e.validationRetries + e.ambiguityReplays
              && match e.lane
                 case SafeRetry => 1 <= e.safeRetries <= 4
                 case ValidationRecovery => e.validationRetries == 1
                 case AmbiguityReplay => e.ambiguityReplays == 1
  {
  }

  // The generation an event leads to keeps its revision until another one is imported.
  function Succession(state: RotationState, event: RotationEvent): RotationState
    requires !state.Ready? || event.Begin? || event.Imported?
  {
    match event
    case Begin(source) => Reserved(source)
    case Imported(revision) => Ready(revision)
    case DispatchBegun => Requested(state.source)
    case ExchangeSucceeded(cookie, successor) => Rotated(state.source, cookie, successor)
    case ExchangeRejected(reason) => Rejected(state.source, reason)
    case ExchangeOutcomeUnknown(reason) => OutcomeUnknown(state.source, reason)
    case AuthorizeRecoveryDispatch(_) => Reserved(state.source)
    case Recover =>
      if state.Reserved? then Ready(state.source)
      else if state.Requested? then OutcomeUnknown(state.source, "interrupted after refresh dispatch")
      else state
  }

  // A new generation is persisted before anything else is done about it: the exchange is
  // dispatched after its REQUESTED record, the successor installed after its ROTATED one. A
  // generation given up has its journal deleted.
  lemma EffectsOfAStep(state: RotationState, event: RotationEvent)
    requires Step(state, event).Some?
    ensures var t := Step(state, event).value;
            var u := t.state;
            var installs := if u.Rotated? then [PersistReplacement(u.source, u.cookie, u.successor)] else [];
            && t.state == Succession(state, event)
            && t.effects ==
               if t.state == state && !state.Ready? then
                 (if state.Rotated? then installs else [WaitForTerminalRevision(state.source)])
               else if t.state.Ready? then (if state.Ready? then [] else [DeleteJournal])
               else [PersistJournal(t.state)]
                    + (if t.state.Requested? then [DispatchExchange(t.state.source)] else installs)
  {
  }

  // What a sequence of events does to one generation; None once an event is impossible.
  function Replay(state: RotationState, events: seq<RotationEvent>): Option<RotationState>
    decreases |events|
  {
    if events == [] then Some(state)
    else match Step(state, events[0])
      case None => None
      case Some(t) => Replay(t.state, events[1..])
  }

  // How many dispatch effects a sequence of events asks for.
  function Dispatches(state: RotationState, events: seq<RotationEvent>): nat
    decreases |events|
  {
    if events == [] then 0
    else match Step(state, events[0])
      case None => 0
      case Some(t) => (if t.effects != [] && t.effects[|t.effects| - 1].DispatchExchange? then 1 else 0)
                      + Dispatches(t.state, events[1..])
  }

  // How many reservations (first or recovery) a sequence of events performs.
  function Reservations(state: RotationState, events: seq<RotationEvent>): nat
    decreases |events|
  {
    if events == [] then 0
    else match Step(state, events[0])
      case None => 0
      case Some(t) => (if t.state.Reserved? then 1 else 0) + Reservations(t.state, events[1..])
  }

  // Every dispatch is preceded by its own durable reservation, and the REQUESTED
  // journal is persisted before the exchange, for every sequence of events.
  lemma {:induction false} EveryDispatchWasReserved(state: RotationState, events: seq<RotationEvent>)
    ensures Dispatches(state, events) <= Reservations(state, events) + (if state.Reserved? then 1 else 0)
    decreases |events|
  {
    if events != [] {
      match Step(state, events[0])
      case None =>
      case Some(t) => EveryDispatchWasReserved(t.state, events[1..]);
    }
  }

  // Only an import moves a rejected generation, or an unknown one whose budget is
  // not authorised, anywhere at all: every other event sequence leaves it in place.
  lemma {:induction false} StoppedGenerationStays(state: RotationState, events: seq<RotationEvent>)
    requires state.Rejected? || state.OutcomeUnknown?
    requires forall e <- events :: !e.Imported?
    requires state.OutcomeUnknown? ==>
               forall e <- events :: e.AuthorizeRecoveryDispatch? ==> !RecoveryDispatchIsAuthorized(e.authorization)
    ensures Replay(state, events) in {None, Some(state)}
    ensures Dispatches(state, events) == 0
    decreases |events|
  {
    if events != [] {
      assert events[0] in events;
      StoppedGenerationStays(state, events[1..]);
    }
  }

  datatype RotationOutcome = RotatedOutcome | RejectedOutcome | UnknownOutcome

  function OutcomeOf(state: RotationState): RotationOutcome
    requires state.Terminal()
  {
    if state.Rotated? then RotatedOutcome else if state.Rejected? then RejectedOutcome else UnknownOutcome
  }

  function OutcomeName(outcome: RotationOutcome): string {
    match outcome
    case RotatedOutcome => "rotated"
    case RejectedOutcome => "rejected"
    case UnknownOutcome => "outcome_unknown"
  }

  const EVENT_KEY_PREFIX := "auth-rotation:"

  // rotation_event_key: the stable outbox identity of one terminal outcome.
  function EventKey(source: Revision, outcome: RotationOutcome): string {
    EVENT_KEY_PREFIX + source + ":" + OutcomeName(outcome)
  }

  function KeyOf(state: RotationState): string
    requires state.Terminal()
  {
    EventKey(state.source, OutcomeOf(state))
  }

  // The fourth letter from the end tells the three outcome names apart.
  lemma OutcomeNameTail(outcome: RotationOutcome)
    ensures |OutcomeName(outcome)| >= 4
    ensures OutcomeName(outcome)[|OutcomeName(outcome)| - 4] ==
            match outcome { case RotatedOutcome => 'a' case RejectedOutcome => 'c' case UnknownOutcome => 'n' }
  {
    match outcome
    case RotatedOutcome => assert "rotated"[3] == 'a';
    case RejectedOutcome => assert "rejected"[4] == 'c';
    case UnknownOutcome => assert "outcome_unknown"[11] == 'n';
  }

  lemma MiddleIsUnique(prefix: string, r: string, s: string, suffix: string)
    requires prefix + r + suffix == prefix + s + suffix
    ensures r == s
  {
    var k := prefix + r + suffix;
    assert |r| == |s|;
    assert r == k[|prefix|..|prefix| + |r|];
    assert s == k[|prefix|..|prefix| + |s|];
  }

  lemma EventKeyTail(r: Revision, outcome: RotationOutcome)
    ensures |EventKey(r, outcome)| >= 4
    ensures EventKey(r, outcome)[|EventKey(r, outcome)| - 4] ==
            match outcome { case RotatedOutcome => 'a' case RejectedOutcome => 'c' case UnknownOutcome => 'n' }
  {
    OutcomeNameTail(outcome);
    var head, name := EVENT_KEY_PREFIX + r + ":", OutcomeName(outcome);
    assert EventKey(r, outcome) == head + name;
    assert (head + name)[|head + name| - 4] == name[|name| - 4];
  }

  // The event key is injective in (revision, outcome), for every revision text.
  lemma EventKeyIsInjective(r: Revision, a: RotationOutcome, s: Revision, b: RotationOutcome)
    ensures EventKey(r, a) == EventKey(s, b) <==> r == s && a == b
  {
    if EventKey(r, a) == EventKey(s, b) {
      EventKeyTail(r, a);
      EventKeyTail(s, b);
      assert a == b;
      var tail := ":" + OutcomeName(a);
      assert EventKey(r, a) == EVENT_KEY_PREFIX + r + tail;
      assert EventKey(s, a) == EVENT_KEY_PREFIX + s + tail;
      MiddleIsUnique(EVENT_KEY_PREFIX, r, s, tail);
    }
  }
}
