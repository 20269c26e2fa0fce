// The refresh loop's bookkeeping (auth_session/auto_refresh.py): one retained successor,
// and bounded local retries before a dispatch.
module AutoRefresh {
  import opened Wrappers
  import opened Protocol

  class RetainedSuccessorBuffer {
    var kept: Option<Successor>

    constructor ()
      ensures kept == None
    {
      kept := None;
    }

    method Remember(s: Successor)
      modifies this
      ensures kept == Some(s)
    {
      kept := Some(s);
    }

    // Only the very successor that was projected is dropped.
    method Clear(s: Successor)
      modifies this
      ensures kept == if old(kept).Some? && old(kept).value.source == s.source && old(kept).value.revision == s.revision
                      then None else old(kept)
    {
      if kept.Some? && kept.value.source == s.source && kept.value.revision == s.revision {
        kept := None;
      }
    }
  }

  // How one refresh ends, for the loop. Any other error ends the loop.
  datatype RefreshEnd =
    | Refreshed
    | FailedBeforeDispatch
    | FailedAfterDispatch(s: Successor)
    | RecoveryPending
    | Terminal

  // What one pass of the loop meets: whether the projection is answered (projected or
  // superseded) rather than failing on storage, whether a credential is due, how its
  // refresh ends, and whether a wait saw the credential change.
  datatype Pass = Pass(answered: bool, due: bool, end: RefreshEnd, changed: bool)

  datatype LoopState = LoopState(retries: nat, projectionRetries: nat, kept: Option<Successor>)

  // _handle_pre_dispatch_error
  function RetriesAfterFailure(retries: nat, limit: nat, changed: bool): nat {
    if retries >= limit || changed then 0 else retries + 1
  }

  function Next(s: LoopState, limit: nat, p: Pass): LoopState {
    if s.kept.Some? then
      (if p.answered then LoopState(0, 0, None) else s.(projectionRetries := s.projectionRetries + 1))
    else if !p.due then s.(retries := 0)
    else match p.end
      case FailedBeforeDispatch => s.(retries := RetriesAfterFailure(s.retries, limit, p.changed))
      case FailedAfterDispatch(successor) => LoopState(0, 0, Some(successor))
      case _ => s.(retries := 0)
  }

  // Whether a pass calls the coordinator's refresh.
  predicate Refreshes(s: LoopState, p: Pass) {
    s.kept.None? && p.due
  }

  class AutoRefreshLoop {
    const buffer: RetainedSuccessorBuffer
    const preDispatchRetryLimit: nat
    var retryCount: nat
    var projectionRetryCount: nat
    ghost var refreshes: nat

    constructor (buffer: RetainedSuccessorBuffer, preDispatchRetryLimit: nat)
      requires buffer.kept.None?
      ensures this.buffer == buffer && this.preDispatchRetryLimit == preDispatchRetryLimit
      ensures State() == LoopState(0, 0, None) && refreshes == 0
    {
      this.buffer, this.preDispatchRetryLimit := buffer, preDispatchRetryLimit;
      retryCount, projectionRetryCount, refreshes := 0, 0, 0;
    }

    function State(): LoopState
      reads this, buffer
    {
      LoopState(retryCount, projectionRetryCount, buffer.kept)
    }

    // The body of _auto_refresh_loop.
    method RunPass(p: Pass)
      modifies this`retryCount, this`projectionRetryCount, this`refreshes, buffer
      ensures State() == Next(old(State()), preDispatchRetryLimit, p)
      ensures refreshes == old(refreshes) + (if old(buffer.kept).None? && p.due then 1 else 0)
      // A retained successor is projected first, and goes only when that is answered.
      ensures old(buffer.kept).Some? ==>
                && buffer.kept == (if p.answered then None else old(buffer.kept))
                && retryCount == (if p.answered then 0 else old(retryCount))
                && projectionRetryCount == (if p.answered then 0 else old(projectionRetryCount) + 1)
      // A refresh that failed after its dispatch leaves its successor here.
      ensures old(buffer.kept).None? && p.due && p.end.FailedAfterDispatch? ==>
                buffer.kept == Some(p.end.s) && retryCount == 0 && projectionRetryCount == 0
      // No other pass fills the buffer, and only a failure before the dispatch counts.
      ensures old(buffer.kept).None? && !(p.due && p.end.FailedAfterDispatch?) ==>
                && buffer.kept.None? && projectionRetryCount == old(projectionRetryCount)
                && retryCount == (if p.due && p.end.FailedBeforeDispatch? && !p.changed
                                     && old(retryCount) < preDispatchRetryLimit
                                  then old(retryCount) + 1 else 0)
    {
      var retained := buffer.kept;
      if retained.Some? {
        if p.answered {
          buffer.Clear(retained.value);
          projectionRetryCount := 0;
          retryCount := 0;
        } else {
          projectionRetryCount := projectionRetryCount + 1;
        }
        return;
      }
      if !p.due {
        retryCount := 0;
        return;
      }
      refreshes := refreshes + 1;
      match p.end {
        case FailedBeforeDispatch =>
          if retryCount >= preDispatchRetryLimit || p.changed {
            retryCount := 0;
          } else {
            retryCount := retryCount + 1;
          }
        case FailedAfterDispatch(successor) =>
          retryCount := 0;
          projectionRetryCount := 0;
          buffer.Remember(successor);
        case Refreshed => retryCount := 0;
        case RecoveryPending => retryCount := 0;
        case Terminal => retryCount := 0;
      }
    }
  }

  function After(s: LoopState, limit: nat, passes: seq<Pass>): LoopState
    decreases |passes|
  {
    if passes == [] then s else After(Next(s, limit, passes[0]), limit, passes[1..])
  }

  function RefreshCount(s: LoopState, limit: nat, passes: seq<Pass>): nat
    decreases |passes|
  {
    if passes == [] then 0
    else (if Refreshes(s, passes[0]) then 1 else 0) + RefreshCount(Next(s, limit, passes[0]), limit, passes[1..])
  }

  // However often its projection fails, a retained successor is kept and no refresh is
  // attempted until one projection is answered.
  lemma {:induction false} RetainedUntilAnswered(s: LoopState, limit: nat, passes: seq<Pass>)
    requires s.kept.Some? && forall p <- passes :: !p.answered
    ensures After(s, limit, passes).kept == s.kept
    ensures RefreshCount(s, limit, passes) == 0
    ensures After(s, limit, passes).projectionRetries == s.projectionRetries + |passes|
    decreases |passes|
  {
    if passes != [] {
      assert passes[0] in passes;
      RetainedUntilAnswered(Next(s, limit, passes[0]), limit, passes[1..]);
    }
  }

  lemma {:induction false} AfterAppend(s: LoopState, limit: nat, a: seq<Pass>, b: seq<Pass>)
    ensures After(s, limit, a + b) == After(After(s, limit, a), limit, b)
    ensures RefreshCount(s, limit, a + b) == RefreshCount(s, limit, a) + RefreshCount(After(s, limit, a), limit, b)
    decreases |a|
  {
    if a == [] {
      assert a + b == b;
    } else {
      assert (a + b)[1..] == a[1..] + b;
      AfterAppend(Next(s, limit, a[0]), limit, a[1..], b);
    }
  }

  lemma OnePass(s: LoopState, limit: nat, p: Pass)
    ensures After(s, limit, [p]) == Next(s, limit, p)
    ensures RefreshCount(s, limit, [p]) == if s.kept.None? && p.due then 1 else 0
  {
  }

  // From a refresh that failed after its dispatch on, no other refresh is made and the
  // successor stays in the buffer until a pass projects it, which empties the buffer and
  // starts both counters again.
  lemma FailedDispatchIsRetained(s: LoopState, limit: nat, failing: Pass, waiting: seq<Pass>, answering: Pass)
    requires s.kept.None? && failing.due && failing.end.FailedAfterDispatch?
    requires (forall p <- waiting :: !p.answered) && answering.answered
    ensures var failed := [failing] + waiting;
            && After(s, limit, failed).kept == Some(failing.end.s) && RefreshCount(s, limit, failed) == 1
            && After(s, limit, failed + [answering]) == LoopState(0, 0, None)
            && RefreshCount(s, limit, failed + [answering]) == 1
  {
    var failed := [failing] + waiting;
    OnePass(s, limit, failing);
    AfterAppend(s, limit, [failing], waiting);
    RetainedUntilAnswered(Next(s, limit, failing), limit, waiting);
    AfterAppend(s, limit, failed, [answering]);
    OnePass(After(s, limit, failed), limit, answering);
  }

  // The i-th pass met an empty buffer and left this successor, and none answered it since.
  predicate FilledBy(s: LoopState, limit: nat, passes: seq<Pass>, kept: Successor, i: nat) {
    && i < |passes| && passes[i].due && passes[i].end == FailedAfterDispatch(kept)
    && After(s, limit, passes[..i]).kept.None?
    && forall j :: i < j < |passes| ==> !passes[j].answered
  }

  // Starting from an empty buffer, a successor is kept exactly when some refresh failed after
  // minting it and no pass projected it since.
  lemma {:induction false} KeptExactlyWhenFailed(s: LoopState, limit: nat, passes: seq<Pass>, kept: Successor)
    requires s.kept.None?
    ensures After(s, limit, passes).kept == Some(kept) <==> exists i: nat :: FilledBy(s, limit, passes, kept, i)
    decreases |passes|
  {
    if passes == [] {
    } else {
      var n := |passes| - 1;
      var before, last := After(s, limit, passes[..n]), passes[n];
      assert passes == passes[..n] + [last];
      AfterAppend(s, limit, passes[..n], [last]);
      OnePass(before, limit, last);
      KeptExactlyWhenFailed(s, limit, passes[..n], kept);
      LastFilling(s, limit, passes, kept);
      if before.kept.None? {
        if After(s, limit, passes).kept == Some(kept) {
          assert FilledBy(s, limit, passes, kept, n);
        }
      }
    }
  }

  lemma LastFilling(s: LoopState, limit: nat, passes: seq<Pass>, kept: Successor)
    requires passes != []
    ensures var n := |passes| - 1;
            forall i: nat :: i < n ==> (FilledBy(s, limit, passes, kept, i) <==>
                                   FilledBy(s, limit, passes[..n], kept, i) && !passes[n].answered)
  {
    hide After;
    var n := |passes| - 1;
    forall i: nat | i < n
      ensures FilledBy(s, limit, passes, kept, i) <==> FilledBy(s, limit, passes[..n], kept, i) && !passes[n].answered
    {
      assert passes[..n][..i] == passes[..i];
      if FilledBy(s, limit, passes[..n], kept, i) && !passes[n].answered {
        assert forall j :: i < j < n ==> passes[..n][j] == passes[j];
      }
      if FilledBy(s, limit, passes, kept, i) {
        assert forall j :: i < j < n ==> passes[..n][j] == passes[j];
      }
    }
  }

  lemma {:induction false} RetriesStayWithinLimit(s: LoopState, limit: nat, passes: seq<Pass>)
    requires s.retries <= limit
    ensures After(s, limit, passes).retries <= limit
    decreases |passes|
  {
    if passes != [] {
      RetriesStayWithinLimit(Next(s, limit, passes[0]), limit, passes[1..]);
    }
  }

  // Local failures before dispatch back off at most `limit` times in a row: the count
  // after n of them is n modulo limit + 1, so every (limit + 1)-th falls back to the long wait.
  lemma {:induction false} FailuresFallBack(s: LoopState, limit: nat, passes: seq<Pass>)
    requires s.kept.None? && s.retries <= limit
    requires forall p <- passes :: p.due && p.end.FailedBeforeDispatch? && !p.changed
    ensures After(s, limit, passes).kept.None?
    ensures After(s, limit, passes).retries == (s.retries + |passes|) % (limit + 1)
    ensures RefreshCount(s, limit, passes) == |passes|
    decreases |passes|
  {
    if passes != [] {
      assert passes[0] in passes;
      var t := Next(s, limit, passes[0]);
      FailuresFallBack(t, limit, passes[1..]);
      WrapsAround(s.retries, |passes| - 1, limit);
    } else {
      SmallIsItsOwnRemainder(s.retries, limit + 1);
    }
  }

  lemma SmallIsItsOwnRemainder(a: nat, b: nat)
    requires a < b
    ensures a % b == a
  {
  }

  lemma WrapsAround(retries: nat, rest: nat, limit: nat)
    requires retries <= limit
    ensures ((if retries >= limit then 0 else retries + 1) + rest) % (limit + 1) == (retries + rest + 1) % (limit + 1)
  {
    if retries >= limit {
      AddingTheModulus(rest, limit + 1);
    }
  }

  lemma AddingTheModulus(a: nat, m: nat)
    requires m > 0
    ensures (a + m) % m == a % m
  {
    var q, r := a / m, a % m;
    assert a + m == m * (q + 1) + r;
    RemainderIsUnique(a + m, m, q + 1, r);
  }

  lemma RemainderIsUnique(x: int, m: int, q: int, r: int)
    requires m > 0 && x == m * q + r && 0 <= r < m
    ensures x % m == r
  {
    var difference := x / m - q;
    assert m * (x / m) + x % m == x;
    assert m * difference == r - x % m;
    MultipleOutOfRange(m, difference);
  }

  lemma MultipleOutOfRange(m: int, k: int)
    requires m > 0
    ensures k >= 1 ==> m * k >= m
    ensures k <= -1 ==> m * k <= -m
  {
    if k >= 1 {
      assert m * (k - 1) >= 0;
    } else if k <= -1 {
      assert m * (k + 1) <= 0;
    }
  }
}
