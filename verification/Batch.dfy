// Fail-fast batch writes (application/mutations.py) and why retrying them converges
// (application/subscriptions.py): every setting's target depends only on the request and
// on the setting as it was read.
module Batch {
  import opened Wrappers

  datatype Decision<K, V> = Unchanged(key: K, configured: bool) | Change(key: K, value: V)

  // How one dispatched write ends: completed, or an operational failure with the write
  // applied or not.
  datatype WriteFault = NoFault | Fails(applied: bool)

  datatype Reason = Applied | AlreadyEffective | NotConfigured | OutcomeUnknown
  datatype OutcomeStatus = ChangedStatus | UnchangedStatus | FailedStatus
  datatype Outcome<K> = Outcome(key: K, status: OutcomeStatus, reason: Reason)
  datatype BatchStatus = CompletedBatch | PartialBatch | FailedBatch
  datatype BatchResult<K> = BatchResult(
    status: BatchStatus, total: nat, completed: nat, remaining: nat, changed: nat, same: nat, failed: nat,
    results: seq<Outcome<K>>)

  // The settings once a run of decisions is applied.
  function Settled<K, V>(store: map<K, V>, decisions: seq<Decision<K, V>>): map<K, V> {
    if decisions == [] then store
    else
      var n := |decisions| - 1;
      var before := Settled(store, decisions[..n]);
      if decisions[n].Change? then before[decisions[n].key := decisions[n].value] else before
  }

  function CountChanges<K, V>(decisions: seq<Decision<K, V>>): nat {
    if decisions == [] then 0
    else CountChanges(decisions[..|decisions| - 1]) + (if decisions[|decisions| - 1].Change? then 1 else 0)
  }

  lemma {:induction false} CountIsExact<K, V>(decisions: seq<Decision<K, V>>)
    ensures CountChanges(decisions) == |set i | 0 <= i < |decisions| && decisions[i].Change?|
  {
    var changes := set i | 0 <= i < |decisions| && decisions[i].Change?;
    if decisions == [] {
      assert changes == {};
    } else {
      var n := |decisions| - 1;
      var before := set i | 0 <= i < n && decisions[..n][i].Change?;
      CountIsExact(decisions[..n]);
      assert changes == if decisions[n].Change? then before + {n} else before;
    }
  }

  function SuccessOf<K, V>(d: Decision<K, V>): Outcome<K> {
    match d
    case Unchanged(key, configured) => Outcome(key, UnchangedStatus, if configured then AlreadyEffective
                                               else NotConfigured)
    case Change(key, _) => Outcome(key, ChangedStatus, Applied)
  }

  // The store behind the gateway: what is written is what is read back.
  class SettingsStore<K(==), V(==)> {
    var settings: map<K, V>

    constructor (settings: map<K, V>)
      ensures this.settings == settings
    {
      this.settings := settings;
    }

    // execute_batch. `faults` is how each dispatched write would end.
    method ExecuteBatch(decisions: seq<Decision<K, V>>, faults: nat -> WriteFault)
      returns (r: BatchResult<K>, ghost reached: nat)
      modifies this
      // `reached` decisions succeeded; the next one, if any, is the first to fail.
      ensures reached <= |decisions|
      ensures forall i :: 0 <= i < reached ==> decisions[i].Change? ==> faults(i).NoFault?
      ensures reached < |decisions| ==> decisions[reached].Change? && faults(reached).Fails?
      ensures settings == Settled(old(settings),
                                  if reached < |decisions| && faults(reached).applied then decisions[..reached + 1]
                                  else decisions[..reached])
      ensures r.total == |decisions| && r.completed == reached && r.remaining == r.total - r.completed
      ensures r.changed == CountChanges(decisions[..reached]) && r.changed + r.same == r.completed
      ensures r.failed == if reached < |decisions| then 1 else 0
      ensures r.status == if reached == |decisions| then CompletedBatch else if reached > 0 then PartialBatch
              else FailedBatch
      ensures |r.results| == reached + r.failed
      ensures forall i :: 0 <= i < reached ==>
                && r.results[i].key == decisions[i].key
                && (decisions[i].Change? ==> r.results[i].status == ChangedStatus && r.results[i].reason == Applied)
                && (decisions[i].Unchanged? ==>
                      && r.results[i].status == UnchangedStatus
                      && r.results[i].reason == if decisions[i].configured then AlreadyEffective else NotConfigured)
      ensures reached < |decisions| ==>
              r.results[reached] == Outcome(decisions[reached].key, FailedStatus, OutcomeUnknown)
    {
      var outcomes: seq<Outcome<K>> := [];
      var changed, same := 0, 0;
      reached := 0;
      assert decisions[..0] == [];
      for i := 0 to |decisions|
        invariant reached == i == changed + same
        invariant settings == Settled(old(settings), decisions[..i])
        invariant changed == CountChanges(decisions[..i])
        invariant forall k :: 0 <= k < i ==> decisions[k].Change? ==> faults(k).NoFault?
        invariant |outcomes| == i && forall k :: 0 <= k < i ==> outcomes[k] == SuccessOf(decisions[k])
      {
        assert decisions[..i + 1][..i] == decisions[..i] && decisions[..i + 1][i] == decisions[i];
        match decisions[i] {
          case Unchanged(key, configured) =>
            same := same + 1;
          case Change(key, value) =>
            var fault := faults(i);
            if fault.NoFault? || fault.applied {
              settings := settings[key := value];
            }
            if fault.Fails? {
              outcomes := outcomes + [Outcome(key, FailedStatus, OutcomeUnknown)];
              var completed := changed + same;
              r := BatchResult(if completed > 0 then PartialBatch else FailedBatch, |decisions|, completed,
                               |decisions| - completed, changed, same, 1, outcomes);
              return;
            }
            changed := changed + 1;
        }
        outcomes := outcomes + [SuccessOf(decisions[i])];
        reached := i + 1;
      }
      assert decisions[..|decisions|] == decisions;
      r := BatchResult(CompletedBatch, |decisions|, |decisions|, 0, changed, same, 0, outcomes);
    }

    // One set command: plan everything from the settings as read, then write.
    method SetAll(keys: seq<K>, target: Planner<K, V>, faults: nat -> WriteFault)
      returns (r: BatchResult<K>, ghost written: nat)
      modifies this
      ensures written <= |PlanOf(keys, old(settings), target)|
      ensures settings == Settled(old(settings), PlanOf(keys, old(settings), target)[..written])
      ensures r.failed == 0 ==> written == |PlanOf(keys, old(settings), target)|
      ensures r.total == |PlanOf(keys, old(settings), target)| == r.completed + r.remaining
      ensures r.completed <= written <= r.completed + r.failed
      // What each completed decision is reported as.
      ensures |r.results| == r.completed + r.failed <= |keys|
      ensures forall i :: 0 <= i < r.completed ==>
                var current := Lookup(old(settings), keys[i]);
                var wanted := target(keys[i], current);
                r.results[i] == Outcome(keys[i],
                                        if wanted.None? || wanted == current then UnchangedStatus else ChangedStatus,
                                        if wanted.None? then NotConfigured
                                        else if wanted == current then AlreadyEffective else Applied)
    {
      var decisions := PlanBatch(keys, settings, target);
      ghost var reached;
      r, reached := ExecuteBatch(decisions, faults);
      written := if reached < |decisions| && faults(reached).applied then reached + 1 else reached;
    }
  }

  // --------------------------------------------------------------------- planning

  // The target of one setting, from the setting as read: None leaves it unconfigured.
  type Planner<!K, !V> = (K, Option<V>) -> Option<V>

  function Lookup<K, V>(store: map<K, V>, key: K): Option<V> {
    if key in store then Some(store[key]) else None
  }

  function Decide<K, V(==)>(key: K, current: Option<V>, target: Option<V>): Decision<K, V> {
    if target.None? then Unchanged(key, false)
    else if target == current then Unchanged(key, true)
    else Change(key, target.value)
  }

  // The whole plan is made before the first write.
  function PlanOf<K, V(==)>(keys: seq<K>, store: map<K, V>, target: Planner<K, V>): seq<Decision<K, V>> {
    if keys == [] then []
    else
      var n := |keys| - 1;
      PlanOf(keys[..n], store, target)
        + [Decide(keys[n], Lookup(store, keys[n]), target(keys[n], Lookup(store, keys[n])))]
  }

  // The loops of set_schedules, set_improvement_jobs and set_email_preferences.
  method PlanBatch<K, V(==)>(keys: seq<K>, store: map<K, V>, target: Planner<K, V>)
    returns (decisions: seq<Decision<K, V>>)
    ensures decisions == PlanOf(keys, store, target)
    ensures |decisions| == |keys|
    ensures forall i :: 0 <= i < |keys| ==>
              var current := Lookup(store, keys[i]);
              var wanted := target(keys[i], current);
              && decisions[i].key == keys[i] && (decisions[i].Change? <==> wanted.Some? && wanted != current)
              && (decisions[i].Change? ==> decisions[i].value == wanted.value)
              && (decisions[i].Unchanged? ==> (decisions[i].configured <==> wanted.Some?))
  {
    decisions := [];
    assert keys[..0] == [];
    for i := 0 to |keys|
      invariant decisions == PlanOf(keys[..i], store, target)
    {
      assert keys[..i + 1][..i] == keys[..i] && keys[..i + 1][i] == keys[i];
      var current := Lookup(store, keys[i]);
      var desired := target(keys[i], current);
      if desired.None? {
        decisions := decisions + [Unchanged(keys[i], false)];
      } else if desired == current {
        decisions := decisions + [Unchanged(keys[i], true)];
      } else {
        decisions := decisions + [Change(keys[i], desired.value)];
      }
    }
    assert keys[..|keys|] == keys;
    PlanLength(keys, store, target);
    forall i | 0 <= i < |keys|
      ensures decisions[i] == Decide(keys[i], Lookup(store, keys[i]), target(keys[i], Lookup(store, keys[i])))
    {
      PlanAt(keys, store, target, i);
    }
  }

  lemma {:induction false} PlanAt<K, V>(keys: seq<K>, store: map<K, V>, target: Planner<K, V>, i: nat)
    requires i < |keys|
    ensures |PlanOf(keys, store, target)| == |keys|
    ensures PlanOf(keys, store, target)[i] ==
            Decide(keys[i], Lookup(store, keys[i]), target(keys[i], Lookup(store, keys[i])))
    ensures PlanOf(keys[..i], store, target) == PlanOf(keys, store, target)[..i]
    decreases |keys|
  {
    var n := |keys| - 1;
    if i < n {
      PlanAt(keys[..n], store, target, i);
      assert keys[..n][..i] == keys[..i];
    } else if n > 0 {
      PlanAt(keys[..n], store, target, 0);
    }
  }

  // Planning what a plan produced changes nothing.
  ghost predicate Idempotent<K(!new), V(!new)>(target: Planner<K, V>) {
    forall key: K, current: Option<V> :: Stable(target, key, current)
  }

  predicate Stable<K, V(==)>(target: Planner<K, V>, key: K, current: Option<V>) {
    target(key, current).Some? ==> target(key, target(key, current)) == target(key, current)
  }

  // Unconfigured stays unconfigured: a missing target means there is nothing to update.
  ghost predicate NeverUnconfigures<K(!new), V(!new)>(target: Planner<K, V>) {
    forall key: K, current: Option<V> :: Configures(target, key, current)
  }

  predicate Configures<K, V(==)>(target: Planner<K, V>, key: K, current: Option<V>) {
    target(key, current).None? ==> current.None?
  }

  // What one uninterrupted run makes of each setting.
  function Ideal<K, V>(keys: seq<K>, store: map<K, V>, target: Planner<K, V>, key: K): Option<V> {
    if key in keys && target(key, Lookup(store, key)).Some? then target(key, Lookup(store, key)) else Lookup(store, key)
  }

  lemma SettledStep<K, V>(store: map<K, V>, plan: seq<Decision<K, V>>, n: nat, key: K)
    requires n < |plan|
    ensures Lookup(Settled(store, plan[..n + 1]), key) ==
            if plan[n].Change? && plan[n].key == key then Some(plan[n].value)
              else Lookup(Settled(store, plan[..n]), key)
  {
    assert plan[..n + 1][..n] == plan[..n] && plan[..n + 1][n] == plan[n];
  }

  lemma {:induction false} PlanLength<K, V>(keys: seq<K>, store: map<K, V>, target: Planner<K, V>)
    ensures |PlanOf(keys, store, target)| == |keys|
  {
    if keys != [] {
      PlanLength(keys[..|keys| - 1], store, target);
    }
  }

  // The setting of a key after any prefix of the plan: its target if the prefix reached
  // it, and untouched otherwise.
  lemma {:induction false} SettledAt<K(!new), V(!new)>(keys: seq<K>, store: map<K, V>, target: Planner<K, V>,
                                       n: nat, key: K)
    requires n <= |keys|
    ensures |PlanOf(keys, store, target)| == |keys|
    ensures Lookup(Settled(store, PlanOf(keys, store, target)[..n]), key) == Ideal(keys[..n], store, target, key)
    decreases n
  {
    hide Settled, PlanOf, Lookup;
    PlanLength(keys, store, target);
    var plan := PlanOf(keys, store, target);
    if n == 0 {
      assert plan[..0] == [];
      assert Settled(store, plan[..0]) == store by { NothingSettled(store); }
    } else {
      SettledAt(keys, store, target, n - 1, key);
      PlanAt(keys, store, target, n - 1);
      SettledStep(store, plan, n - 1, key);
      assert keys[..n] == keys[..n - 1] + [keys[n - 1]];
    }
  }

  lemma NothingSettled<K, V>(store: map<K, V>)
    ensures Settled(store, []) == store
  {
  }

  // A run stopped after any number of its writes, then planned again from what it left and
  // stopped again, as often as it takes: one completed run ends in the store an
  // uninterrupted run would have ended in.
  function Interrupted<K, V(==)>(keys: seq<K>, store: map<K, V>, target: Planner<K, V>, cuts: seq<nat>): map<K, V>
    decreases |cuts|
  {
    if cuts == [] then store
    else
      var plan := PlanOf(keys, store, target);
      var n := if cuts[0] <= |plan| then cuts[0] else |plan|;
      Interrupted(keys, Settled(store, plan[..n]), target, cuts[1..])
  }

  lemma {:induction false} InterruptionsKeepTheIdeal<K(!new), V(!new)>(keys: seq<K>, store: map<K, V>,
                                                       target: Planner<K, V>,
                                                                         cuts: seq<nat>, key: K)
    requires Idempotent(target)
    ensures Ideal(keys, Interrupted(keys, store, target, cuts), target, key) == Ideal(keys, store, target, key)
    decreases |cuts|
  {
    if cuts != [] {
      var plan := PlanOf(keys, store, target);
      var n := if cuts[0] <= |plan| then cuts[0] else |plan|;
      if keys != [] { PlanAt(keys, store, target, 0); }
      SettledAt(keys, store, target, n, key);
      var next := Settled(store, plan[..n]);
      assert Stable(target, key, Lookup(store, key));
      assert key in keys[..n] ==> key in keys;
      assert Ideal(keys, next, target, key) == Ideal(keys, store, target, key);
      InterruptionsKeepTheIdeal(keys, next, target, cuts[1..], key);
    }
  }

  // An interrupted run leaves each setting as it was or as it is to be.
  lemma {:induction false} InterruptedValues<K(!new), V(!new)>(keys: seq<K>, store: map<K, V>, target: Planner<K, V>,
                                                               cuts: seq<nat>, key: K)
    requires Idempotent(target)
    ensures Lookup(Interrupted(keys, store, target, cuts), key) in {Lookup(store, key), Ideal(keys, store, target, key)}
    decreases |cuts|
  {
    if cuts != [] {
      var plan := PlanOf(keys, store, target);
      var n := if cuts[0] <= |plan| then cuts[0] else |plan|;
      if keys != [] { PlanAt(keys, store, target, 0); }
      SettledAt(keys, store, target, n, key);
      var next := Settled(store, plan[..n]);
      assert key in keys[..n] ==> key in keys;
      InterruptedValues(keys, next, target, cuts[1..], key);
      InterruptionsKeepTheIdeal(keys, store, target, [n], key);
      assert Interrupted(keys, store, target, [n]) == next;
    }
  }

  lemma RetriesConverge<K(!new), V(!new)>(keys: seq<K>, store: map<K, V>, target: Planner<K, V>, cuts: seq<nat>)
    requires Idempotent(target)
    ensures var left := Interrupted(keys, store, target, cuts);
            Settled(left, PlanOf(keys, left, target)) == Settled(store, PlanOf(keys, store, target))
  {
    var left := Interrupted(keys, store, target, cuts);
    var resumed, direct := Settled(left, PlanOf(keys, left, target)), Settled(store, PlanOf(keys, store, target));
    forall key ensures Lookup(resumed, key) == Lookup(direct, key) {
      InterruptionsKeepTheIdeal(keys, store, target, cuts, key);
      CompleteRun(keys, left, target, key);
      CompleteRun(keys, store, target, key);
    }
    forall key ensures key in resumed <==> key in direct {
      assert Lookup(resumed, key) == Lookup(direct, key);
    }
    forall key | key in resumed ensures resumed[key] == direct[key] {
      assert Lookup(resumed, key) == Lookup(direct, key);
    }
  }

  lemma CompleteRun<K(!new), V(!new)>(keys: seq<K>, store: map<K, V>, target: Planner<K, V>, key: K)
    ensures Lookup(Settled(store, PlanOf(keys, store, target)), key) == Ideal(keys, store, target, key)
  {
    SettledAt(keys, store, target, |keys|, key);
    var plan := PlanOf(keys, store, target);
    assert plan[..|keys|] == plan && keys[..|keys|] == keys;
  }

  // After a completed run, the next one has nothing to write.
  lemma NothingLeftToChange<K(!new), V(!new)>(keys: seq<K>, store: map<K, V>, target: Planner<K, V>)
    requires Idempotent(target) && NeverUnconfigures(target)
    ensures var done := Settled(store, PlanOf(keys, store, target));
            forall d <- PlanOf(keys, done, target) :: d.Unchanged?
  {
    var done := Settled(store, PlanOf(keys, store, target));
    var plan := PlanOf(keys, done, target);
    if keys != [] { PlanAt(keys, done, target, 0); }
    forall i | 0 <= i < |plan| ensures plan[i].Unchanged? {
      var key := keys[i];
      PlanAt(keys, done, target, i);
      CompleteRun(keys, store, target, key);
      assert Stable(target, key, Lookup(store, key)) && Configures(target, key, Lookup(store, key));
    }
  }
}
