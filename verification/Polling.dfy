// The two polling loops (audit/wait.py, auth_session/auto_refresh.py) against a monotonic
// clock that advances at least as much as each sleep.
module Polling {
  import opened Wrappers

  // A sleep: when the clock was last read before it, when it began, and how long it was to last.
  datatype Sleep = Sleep(readAt: real, startedAt: real, seconds: real)

  // A clock, the sleeps asked of it, and how much of the time was spent in them.
  class Clock {
    var now: real
    ghost var sleeps: seq<Sleep>
    ghost var slept: real

    constructor (start: real)
      ensures now == start && sleeps == [] && slept == 0.0
    {
      now, sleeps, slept := start, [], 0.0;
    }

    // Anything but sleeping takes time too: reading, and whatever runs before a sleep.
    method Pass()
      modifies this`now
      ensures now >= old(now)
    {
      var elapsed: real := *;
      if elapsed > 0.0 {
        now := now + elapsed;
      }
    }

    method Read() returns (t: real)
      modifies this`now
      ensures t == now && now >= old(now)
    {
      Pass();
      t := now;
    }

    method SleepFor(seconds: real, ghost readAt: real)
      requires seconds >= 0.0
      modifies this
      ensures now >= old(now) + seconds
      ensures sleeps == old(sleeps) + [Sleep(readAt, old(now), seconds)] && slept == old(slept) + seconds
    {
      sleeps, slept := sleeps + [Sleep(readAt, now, seconds)], slept + seconds;
      now := now + seconds;
      Pass();
    }

    // A sleep that the file watcher may cut short.
    method SleepUnlessEvent(seconds: real, ghost readAt: real, event: Watcher)
      requires seconds >= 0.0
      modifies this
      ensures now >= old(now) && (event.Quiet? ==> now >= old(now) + seconds)
      ensures sleeps == old(sleeps) + [Sleep(readAt, old(now), seconds)]
      ensures slept == old(slept) + Min(now - old(now), seconds)
    {
      sleeps := sleeps + [Sleep(readAt, now, seconds)];
      if event.Quiet? {
        now := now + seconds;
      }
      Pass();
      slept := slept + Min(now - old(now), seconds);
    }
  }

  // What the disposable file watcher does during one wait.
  datatype Watcher = Quiet | Changed | Broken

  function Min(a: real, b: real): real {
    if a <= b then a else b
  }

  // The smallest number of polls that covers a timeout.
  function Ceiling(x: real): int {
    -((-x).Floor)
  }

  lemma CeilingIsLeast(x: real, n: int)
    ensures Ceiling(x) <= n <==> x <= n as real
  {
    assert (-x).Floor as real <= -x < (-x).Floor as real + 1.0;
  }

  // The length of n intervals.
  function Span(n: int, interval: real): real {
    n as real * interval
  }

  lemma CeilingCovers(timeout: real, poll: real)
    requires poll > 0.0 && timeout >= 0.0
    ensures Ceiling(timeout / poll) >= 0
    ensures Span(Ceiling(timeout / poll), poll) >= timeout
  {
    var q, n := timeout / poll, Ceiling(timeout / poll);
    assert q * poll == timeout;
    ProductsKeepOrder(q, n as real, poll);
  }

  lemma ProductsKeepOrder(a: real, b: real, c: real)
    requires c > 0.0
    ensures a <= b ==> a * c <= b * c
    ensures a < b ==> a * c < b * c
  {
    if a < b {
      assert (b - a) * c > 0.0;
    }
  }

  lemma SpanSteps(n: int, interval: real)
    ensures Span(0, interval) == 0.0
    ensures Span(n + 1, interval) == Span(n, interval) + interval
  {
  }

  // Every sleep since `from` was planned at a reading before the deadline, to last no longer
  // than the poll interval and to end by the deadline if it began at once.
  predicate SleepsPlanned(sleeps: seq<Sleep>, from: nat, poll: real, deadline: real) {
    forall i :: from <= i < |sleeps| ==> Planned(sleeps[i], poll, deadline)
  }

  predicate Planned(sleep: Sleep, poll: real, deadline: real) {
    sleep.readAt < deadline && sleep.readAt <= sleep.startedAt && sleep.seconds == Min(poll, deadline - sleep.readAt)
  }

  // What a planned sleep leaves of the time to the deadline.
  function Slack(sleep: Sleep, deadline: real): real {
    deadline - sleep.readAt - sleep.seconds
  }

  // A sleep goes past the deadline exactly when whatever ran between reading the clock and
  // sleeping took longer than the slack, and then by exactly the difference.
  lemma OvershootIsExact(sleep: Sleep, poll: real, deadline: real)
    requires poll > 0.0 && Planned(sleep, poll, deadline)
    ensures 0.0 <= Slack(sleep, deadline) && 0.0 < sleep.seconds <= poll
    ensures Slack(sleep, deadline) == if deadline - sleep.readAt <= poll then 0.0 else deadline - sleep.readAt - poll
    ensures sleep.startedAt + sleep.seconds - deadline == sleep.startedAt - sleep.readAt - Slack(sleep, deadline)
    ensures sleep.startedAt + sleep.seconds > deadline <==> sleep.startedAt - sleep.readAt > Slack(sleep, deadline)
    ensures sleep.startedAt == sleep.readAt ==> sleep.startedAt + sleep.seconds <= deadline
  {
  }

  lemma SleepAdds(sleeps: seq<Sleep>, from: nat, poll: real, deadline: real, readAt: real, startedAt: real)
    requires SleepsPlanned(sleeps, from, poll, deadline) && readAt < deadline && readAt <= startedAt
    ensures SleepsPlanned(sleeps + [Sleep(readAt, startedAt, Min(poll, deadline - readAt))], from, poll, deadline)
  {
  }

  // A deadline reached in n intervals of sleep and some other time takes as many of them as
  // the other time leaves.
  lemma OtherTimeIsMissing(timeout: real, other: real, n: int, poll: real)
    requires poll > 0.0 && timeout - other <= Span(n, poll)
    ensures Ceiling((timeout - other) / poll) <= n
  {
    var x := (timeout - other) / poll;
    assert x * poll == timeout - other;
    ProductsKeepOrder(n as real, x, poll);
    CeilingIsLeast(x, n);
  }

  // The k-th heartbeat is not early.
  predicate BeatsSpaced(beats: seq<real>, started: real, interval: real) {
    forall k :: 0 <= k < |beats| ==> beats[k] >= started + Span(k, interval)
  }

  lemma BeatAdds(beats: seq<real>, started: real, interval: real, beat: real)
    requires BeatsSpaced(beats, started, interval) && beat >= started + Span(|beats|, interval)
    ensures BeatsSpaced(beats + [beat], started, interval)
  {
    hide Span;
  }

  lemma NothingHappened(sleeps: seq<Sleep>, poll: real, started: real, timeout: real, interval: real)
    ensures SleepsPlanned(sleeps, |sleeps|, poll, started + timeout) && BeatsSpaced([], started, interval)
  {
  }

  // ------------------------------------------------------------------- audit wait

  datatype WaitOptions = WaitOptions(poll: real, timeout: real, heartbeat: real)
  // Which of a repository's audits are active, missing or failed.
  datatype Status = Status(active: bool, missing: bool, failed: bool) {
    predicate Complete() {
      !active && !missing && !failed
    }
  }
  datatype Reason = CompleteReason | WaitingReason | FailedReason | MissingReason | TimeoutReason
  datatype WaitResult = WaitResult(status: Status, complete: bool, timedOut: bool, reason: Reason)
  datatype OptionError = PollNotPositive | TimeoutNegative | HeartbeatNotPositive

  function ValidateWaitOptions(o: WaitOptions): Reply<(), OptionError> {
    if o.poll <= 0.0 then Raised(PollNotPositive)
    else if o.timeout < 0.0 then Raised(TimeoutNegative)
    else if o.heartbeat <= 0.0 then Raised(HeartbeatNotPositive)
    else Value(())
  }

  function ResultOf(status: Status, timedOut: bool): WaitResult {
    var reason :=
      if status.failed then FailedReason
      else if timedOut then TimeoutReason
      else if status.active then WaitingReason
      else if status.missing then MissingReason
      else CompleteReason;
    WaitResult(status, status.Complete() && !timedOut, timedOut, reason)
  }

  // The reason says complete exactly when the result is, and every other reason is exact too.
  lemma ReasonIsExact(status: Status, timedOut: bool)
    ensures var r := ResultOf(status, timedOut);
            && r.status == status && r.timedOut == timedOut
            && (r.reason.CompleteReason? <==> r.complete)
            && (r.complete <==> status.Complete() && !timedOut)
            && (r.reason.FailedReason? <==> status.failed)
            && (r.reason.TimeoutReason? <==> timedOut && !status.failed)
            && (r.reason.MissingReason? <==> !timedOut && status.missing && !status.active && !status.failed)
            && (r.reason.WaitingReason? <==> !timedOut && status.active && !status.failed)
  {
  }

  // wait_for_completion; `statuses` is what each read returns, `beats` when heartbeats went
  // out, and `other` the time since the start that was not spent sleeping.
  method WaitForCompletion(clock: Clock, o: WaitOptions, statuses: nat -> Status, wantsHeartbeat: bool)
    returns (r: Reply<WaitResult, OptionError>, evaluations: nat, ghost started: real, ghost beats: seq<real>,
             ghost other: real)
    modifies clock
    ensures r.Raised? <==> o.poll <= 0.0 || o.timeout < 0.0 || o.heartbeat <= 0.0
    ensures r.Raised? ==>
              && evaluations == 0 && clock.now == old(clock.now)
              && r.error == (if o.poll <= 0.0 then PollNotPositive
                             else if o.timeout < 0.0 then TimeoutNegative else HeartbeatNotPositive)
    ensures r.Value? ==>
              && 1 <= evaluations <= Ceiling(o.timeout / o.poll) + 1
              && r.value == ResultOf(statuses(evaluations - 1), r.value.timedOut)
              && (r.value.reason.CompleteReason? <==> r.value.complete)
              && (r.value.complete <==> statuses(evaluations - 1).Complete() && !r.value.timedOut)
              && !r.value.reason.WaitingReason?
              && (r.value.timedOut ==> clock.now >= started + o.timeout)
              && (forall i :: 0 <= i < evaluations - 1 ==> ResultOf(statuses(i), false).reason.WaitingReason?)
    // Time is conserved, and a timeout that nothing but sleeping used up takes every evaluation.
    ensures r.Value? ==>
              && clock.now == started + (clock.slept - old(clock.slept)) + other && other >= 0.0
              && (r.value.timedOut ==> Ceiling((o.timeout - other) / o.poll) + 1 <= evaluations)
              && (r.value.timedOut && other == 0.0 ==> evaluations == Ceiling(o.timeout / o.poll) + 1)
    ensures r.Value? ==>
              && started >= old(clock.now)
              && SleepsPlanned(clock.sleeps, |old(clock.sleeps)|, o.poll, started + o.timeout)
              && BeatsSpaced(beats, started, o.heartbeat)
  {
    evaluations, started, beats, other := 0, clock.now, [], 0.0;
    var valid := ValidateWaitOptions(o);
    if valid.Raised? {
      return Raised(valid.error), 0, started, [], other;
    }
    hide Span, Ceiling, SleepsPlanned, BeatsSpaced, ResultOf;
    CeilingCovers(o.timeout, o.poll);
    SpanSteps(0, o.poll);
    SpanSteps(0, o.heartbeat);
    var startedAt := clock.Read();
    started := startedAt;
    NothingHappened(clock.sleeps, o.poll, startedAt, o.timeout, o.heartbeat);
    var deadline := startedAt + o.timeout;
    var nextHeartbeatAt := startedAt;
    ghost var bound := Ceiling(o.timeout / o.poll);
    while true
      invariant 0 <= evaluations <= bound
      invariant clock.now >= Min(deadline, startedAt + Span(evaluations, o.poll))
      invariant clock.now >= startedAt >= old(clock.now)
      invariant clock.slept - old(clock.slept) <= clock.now - startedAt
      invariant clock.slept - old(clock.slept) <= Span(evaluations, o.poll)
      invariant forall i :: 0 <= i < evaluations ==> ResultOf(statuses(i), false).reason.WaitingReason?
      invariant |clock.sleeps| >= |old(clock.sleeps)|
      invariant SleepsPlanned(clock.sleeps, |old(clock.sleeps)|, o.poll, deadline)
      invariant nextHeartbeatAt == startedAt + Span(|beats|, o.heartbeat)
      invariant BeatsSpaced(beats, startedAt, o.heartbeat)
      decreases bound - evaluations
    {
      var status := statuses(evaluations);
      var now := clock.Read();
      var timedOut := now >= deadline;
      var result := ResultOf(status, timedOut);
      ReasonIsExact(status, timedOut);
      evaluations := evaluations + 1;
      if result.complete || result.reason.FailedReason? || result.reason.MissingReason? || timedOut {
        other := clock.now - startedAt - (clock.slept - old(clock.slept));
        if timedOut {
          OtherTimeIsMissing(o.timeout, other, evaluations - 1, o.poll);
        }
        return Value(result), evaluations, started, beats, other;
      }
      if evaluations - 1 == bound {
        assert false;
      }
      if wantsHeartbeat && now >= nextHeartbeatAt {
        SpanSteps(|beats|, o.heartbeat);
        BeatAdds(beats, startedAt, o.heartbeat, now);
        beats := beats + [now];
        nextHeartbeatAt := nextHeartbeatAt + o.heartbeat;
      }
      clock.Pass();
      SpanSteps(evaluations - 1, o.poll);
      SleepAdds(clock.sleeps, |old(clock.sleeps)|, o.poll, deadline, now, clock.now);
      clock.SleepFor(Min(o.poll, deadline - now), now);
    }
  }

  // --------------------------------------------------------------- credential wait

  // _wait_for_credential_change; `revisions` is what each read of the file returns and
  // `events` what the watcher does during each wait. A broken watcher is dropped, and cuts
  // one sleep short.
  method WaitForCredentialChange(clock: Clock, expected: Option<string>, timeout: real, poll: real,
                                 revisions: nat -> Option<string>, events: nat -> Watcher)
    returns (changed: bool, evaluations: nat, ghost started: real, ghost broke: bool, ghost other: real)
    requires poll > 0.0
    modifies clock
    ensures 1 <= evaluations
    ensures timeout >= 0.0 ==> evaluations <= Ceiling(timeout / poll) + 1 + (if broke then 1 else 0)
    ensures timeout < 0.0 ==> evaluations == 1
    ensures broke ==> exists k :: 0 <= k < evaluations && events(k).Broken?
    ensures forall i :: 0 <= i < evaluations - 1 ==> revisions(i) == expected
    ensures !changed ==> revisions(evaluations - 1) == expected && clock.now >= started + timeout
    ensures changed ==> revisions(evaluations - 1) != expected || events(evaluations - 1).Changed?
    ensures started >= old(clock.now) && SleepsPlanned(clock.sleeps, |old(clock.sleeps)|, poll, started + timeout)
    // Time is conserved, and a wait that nothing but sleeping used up takes every evaluation.
    ensures clock.now == started + (clock.slept - old(clock.slept)) + other && other >= 0.0
    ensures !changed ==> Ceiling((timeout - other) / poll) + 1 <= evaluations
    ensures !changed && other == 0.0 && !broke && timeout >= 0.0 ==> evaluations == Ceiling(timeout / poll) + 1
  {
    hide Span, Ceiling, SleepsPlanned;
    evaluations, broke := 0, false;
    var startedAt := clock.Read();
    started := startedAt;
    NothingHappened(clock.sleeps, poll, startedAt, timeout, poll);
    var deadline := startedAt + timeout;
    var watching := true;
    // The completed sleeps: one per evaluation but for the one a broken watcher cut short.
    ghost var brokeAt, full := 0, 0;
    ghost var bound := if timeout >= 0.0 then Ceiling(timeout / poll) else 0;
    if timeout >= 0.0 {
      CeilingCovers(timeout, poll);
    }
    SpanSteps(0, poll);
    while true
      invariant 0 <= evaluations && (evaluations > 0 ==> timeout >= 0.0)
      invariant broke <==> !watching
      invariant broke ==> 0 <= brokeAt < evaluations && events(brokeAt).Broken?
      invariant 0 <= full <= bound && evaluations == full + (if broke then 1 else 0)
      invariant clock.now >= started == startedAt >= old(clock.now)
      invariant clock.slept - old(clock.slept) <= clock.now - startedAt
      invariant clock.slept - old(clock.slept) <= Span(evaluations, poll)
      invariant evaluations > 0 ==> clock.now >= Min(deadline, started + Span(full, poll))
      invariant forall i :: 0 <= i < evaluations ==> revisions(i) == expected
      invariant |clock.sleeps| >= |old(clock.sleeps)|
      invariant SleepsPlanned(clock.sleeps, |old(clock.sleeps)|, poll, deadline)
      decreases bound - full, watching
    {
      var revision := revisions(evaluations);
      evaluations := evaluations + 1;
      if revision != expected {
        other := clock.now - startedAt - (clock.slept - old(clock.slept));
        return true, evaluations, started, broke, other;
      }
      var now := clock.Read();
      var remaining := deadline - now;
      if remaining <= 0.0 {
        other := clock.now - startedAt - (clock.slept - old(clock.slept));
        OtherTimeIsMissing(timeout, other, evaluations - 1, poll);
        return false, evaluations, started, broke, other;
      }
      if full == bound {
        assert false;
      }
      var interval := Min(poll, remaining);
      var event := if watching then events(evaluations - 1) else Quiet;
      clock.Pass();
      SpanSteps(full, poll);
      SpanSteps(evaluations - 1, poll);
      SleepAdds(clock.sleeps, |old(clock.sleeps)|, poll, deadline, now, clock.now);
      clock.SleepUnlessEvent(interval, now, event);
      if event.Changed? {
        other := clock.now - startedAt - (clock.slept - old(clock.slept));
        return true, evaluations, started, broke, other;
      }
      if event.Broken? {
        watching, broke, brokeAt := false, true, evaluations - 1;
      } else {
        full := full + 1;
      }
    }
  }
}
