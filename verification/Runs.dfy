// Facts about runs of the protocol: joining them, counting the POSTs they send, and
// reading their clock.
module Runs {
  import opened Wrappers
  import opened StateMachine
  import Budget
  import opened Protocol

  lemma {:induction false} PrefixIsLegal(w: World, acts: seq<Action>, k: nat)
    requires Legal(w, acts) && k <= |acts|
    ensures Legal(w, acts[..k])
    decreases |acts|
  {
    hide Enabled, Apply;
    if k == |acts| {
      assert acts[..k] == acts;
    } else {
      var n := |acts| - 1;
      PrefixIsLegal(w, acts[..n], k);
      assert acts[..n][..k] == acts[..k];
    }
  }

  lemma EmptyRun(w: World)
    ensures Legal(w, []) && Exec(w, []) == w
  {
  }

  lemma LastOfRun(w: World, acts: seq<Action>)
    requires Legal(w, acts) && acts != []
    ensures var n := |acts| - 1;
            && Legal(w, acts[..n]) && Enabled(Exec(w, acts[..n]), acts[n])
            && Exec(w, acts) == Apply(Exec(w, acts[..n]), acts[n])
  {
    hide Enabled, Apply;
  }

  lemma {:induction false} RunJoin(w: World, acts: seq<Action>, more: seq<Action>)
    requires Legal(w, acts) && Legal(Exec(w, acts), more)
    ensures Legal(w, acts + more) && Exec(w, acts + more) == Exec(Exec(w, acts), more)
    decreases |more|
  {
    hide Enabled, Apply, Exec, Legal;
    if more == [] {
      EmptyRun(Exec(w, acts));
      assert acts + more == acts;
    } else {
      var n := |more| - 1;
      LastOfRun(Exec(w, acts), more);
      RunJoin(w, acts, more[..n]);
      RunExtends(w, acts + more[..n], more[n]);
      assert acts + more == acts + more[..n] + [more[n]];
    }
  }

  // ------------------------------------------------------------------------ POSTs

  lemma AddAssociates(a: Counts, b: Counts, c: Counts)
    ensures a.Add(b).Add(c) == a.Add(b.Add(c))
    ensures a.Add(NONE) == a == NONE.Add(a)
    ensures a.Add(b).Total() == a.Total() + b.Total()
  {
  }

  // What one step posts for a revision, by kind.
  function Sends(w: World, a: Action, r: Revision): Counts {
    if a.Send? && w.proc.phase.Sending? && w.proc.phase.source == r then NONE.Plus(w.proc.phase.kind) else NONE
  }

  // The POSTs a run sends for a revision, by kind, counted from the run alone.
  function Posted(w: World, acts: seq<Action>, r: Revision): Counts
    requires Legal(w, acts)
    decreases |acts|
  {
    if acts == [] then NONE
    else
      var n := |acts| - 1;
      Posted(w, acts[..n], r).Add(Sends(Exec(w, acts[..n]), acts[n], r))
  }

  lemma NothingPosted(w: World, r: Revision)
    ensures Legal(w, []) && Exec(w, []) == w && Posted(w, [], r) == NONE
  {
  }

  lemma PostedNext(w: World, acts: seq<Action>, a: Action, r: Revision)
    requires Legal(w, acts) && Enabled(Exec(w, acts), a)
    ensures Legal(w, acts + [a]) && Exec(w, acts + [a]) == Apply(Exec(w, acts), a)
    ensures Posted(w, acts + [a], r) == Posted(w, acts, r).Add(Sends(Exec(w, acts), a, r))
  {
    hide Enabled, Apply, Sends;
    RunExtends(w, acts, a);
    assert (acts + [a])[..|acts|] == acts;
  }

  lemma {:induction false} PostedJoin(w: World, acts: seq<Action>, more: seq<Action>, r: Revision)
    requires Legal(w, acts) && Legal(Exec(w, acts), more)
    ensures Legal(w, acts + more)
    ensures Posted(w, acts + more, r) == Posted(w, acts, r).Add(Posted(Exec(w, acts), more, r))
    decreases |more|
  {
    hide Enabled, Apply, Sends, Counts.Add;
    RunJoin(w, acts, more);
    if more == [] {
      assert acts + more == acts;
      AddAssociates(Posted(w, acts, r), NONE, NONE);
    } else {
      var n := |more| - 1;
      var v := Exec(w, acts);
      PostedJoin(w, acts, more[..n], r);
      RunJoin(w, acts, more[..n]);
      assert (acts + more)[..|acts| + n] == acts + more[..n];
      AddAssociates(Posted(w, acts, r), Posted(v, more[..n], r), Sends(Exec(v, more[..n]), more[n], r));
    }
  }

  // ------------------------------------------------------------------------ clocks

  // The clock a step reads, if it reads one.
  function ClockOf(a: Action): Option<int> {
    match a
    case Begin(now, _) => Some(now)
    case Retry(now, _) => Some(now)
    case Commit(now, _, _, _, _) => Some(now)
    case MarkUnknown(now, _, _) => Some(now)
    case Stop(now, _) => Some(now)
    case _ => None
  }

  // No clock of the run is before `from`, and none runs backwards.
  predicate ClocksRise(acts: seq<Action>, from: int)
    decreases |acts|
  {
    acts == [] || (var n := |acts| - 1;
                   ClocksRise(acts[..n], from) && LatestClock(acts[..n], from) <= LatestClock(acts, from))
  }

  function LatestClock(acts: seq<Action>, from: int): int
    decreases |acts|
  {
    if acts == [] then from
    else
      var n := |acts| - 1;
      if ClockOf(acts[n]).Some? then ClockOf(acts[n]).value else LatestClock(acts[..n], from)
  }

  lemma {:induction false} ClocksJoin(acts: seq<Action>, more: seq<Action>, from: int)
    ensures LatestClock(acts + more, from) == LatestClock(more, LatestClock(acts, from))
    ensures ClocksRise(acts, from) && ClocksRise(more, LatestClock(acts, from)) ==> ClocksRise(acts + more, from)
    decreases |more|
  {
    hide ClockOf;
    if more == [] {
      assert acts + more == acts;
    } else {
      var n := |more| - 1;
      ClocksJoin(acts, more[..n], from);
      assert (acts + more)[..|acts| + n] == acts + more[..n];
      assert (acts + more)[|acts| + n] == more[n];
    }
  }

  // A later starting point is as good as an earlier one.
  lemma {:induction false} ClocksRiseFromEarlier(acts: seq<Action>, from: int, earlier: int)
    requires ClocksRise(acts, from) && earlier <= from
    ensures ClocksRise(acts, earlier) && LatestClock(acts, earlier) <= LatestClock(acts, from)
    decreases |acts|
  {
    hide ClockOf;
    if acts != [] {
      ClocksRiseFromEarlier(acts[..|acts| - 1], from, earlier);
    }
  }

  // Nothing pending, no journal, and a cookie credential to refresh.
  predicate Refreshable(w: World, r: Revision) {
    && w.proc.AtRest() && Budget.OwnerIsValid(w.proc.owner) && w.disk.journal == NoJournal
    && w.disk.auth.Some? && w.disk.auth.value.revision == r && w.disk.auth.value.credential.Cookie?
  }
}
