// FileAuditLedger (audit/ledger.py): the file behind the ledger, its transactions, and
// reconcile, whose lookups run unlocked while other processes use the same file.
module LedgerFile {
  import opened Wrappers
  import opened Lifecycle
  import opened Ledger

  // How often reconcile re-reads the ledger for task ids that appeared meanwhile.
  const MAX_LOOKUP_ROUNDS: nat := 3

  // An entry of this repository whose task has to be looked up.
  predicate WantsLookup(e: Entry, repoId: string, now: int) {
    e.taskId.Some? && e.repoId == repoId && Live(e, now)
  }

  // Some undecided entry of this repository carries the task id.
  predicate Wanted(entries: seq<Entry>, repoId: string, now: int, id: string) {
    exists e <- entries ::
      e.taskId == Some(id) && e.repoId == repoId && now < e.expires.at && !IsTerminalStatus(e.taskStatus)
  }

  predicate Distinct(ids: seq<string>) {
    forall i, j :: 0 <= i < j < |ids| ==> ids[i] != ids[j]
  }

  // A cache of what the lookup answered, for exactly these ids.
  ghost predicate CacheOf(cache: map<string, Lookup>, ids: seq<string>, lookup: string -> Lookup) {
    (forall id :: id in cache <==> id in ids) && (forall id <- cache :: cache[id] == lookup(id))
  }

  // _resolve_lookups
  method ResolveLookups(ids: seq<string>, lookup: string -> Lookup, cache: map<string, Lookup>)
    returns (resolved: map<string, Lookup>)
    ensures forall id :: id in resolved <==> id in cache || id in ids
    ensures forall id <- resolved :: resolved[id] == if id in ids then lookup(id) else cache[id]
  {
    resolved := cache;
    for i := 0 to |ids|
      invariant forall id :: id in resolved <==> id in cache || id in ids[..i]
      invariant forall id <- resolved :: resolved[id] == if id in ids[..i] then lookup(id) else cache[id]
    {
      resolved := resolved[ids[i] := lookup(ids[i])];
      assert ids[..i + 1] == ids[..i] + [ids[i]];
    }
    assert ids[..|ids|] == ids;
  }

  datatype LedgerError = WriteFailed

  // What a commit projects and suppresses.
  datatype Reconciliation = Reconciliation(projected: seq<AuditRun>, suppressed: set<string>)

  // What other processes do to the file before a locked section of reconcile, and how that
  // section fares with the file.
  datatype Round = Round(others: seq<Transaction>, via: Access)

  function OthersIn(rounds: seq<Round>): seq<Transaction> {
    if rounds == [] then [] else OthersIn(rounds[..|rounds| - 1]) + rounds[|rounds| - 1].others
  }

  // What happens to the file before the commit, when `performed` rounds looked tasks up.
  function Interference(rounds: seq<Round>, performed: nat): seq<Transaction>
    requires performed <= MAX_LOOKUP_ROUNDS < |rounds|
  {
    OthersIn(rounds[..performed]) + rounds[MAX_LOOKUP_ROUNDS].others
  }

  // The entries the k-th round read.
  function SeenInRound(entries: seq<Entry>, rounds: seq<Round>, k: nat): seq<Entry>
    requires k < |rounds|
  {
    Seen(AfterAll(entries, OthersIn(rounds[..k + 1])), rounds[k].via)
  }

  class FileAuditLedger {
    // What the file holds, whether or not it can be read at the moment.
    var entries: seq<Entry>
    const graceSeconds: int

    constructor (entries: seq<Entry>, graceSeconds: int)
      ensures this.entries == entries && this.graceSeconds == graceSeconds
    {
      this.entries, this.graceSeconds := entries, graceSeconds;
    }

    // _write: the new content, or the old one, as write_atomic_json leaves it.
    method Write(content: seq<Entry>, via: Access) returns (r: Reply<(), LedgerError>)
      modifies this`entries
      ensures entries == if via.write.Lands() then content else old(entries)
      ensures r.Raised? <==> !via.write.Done?
    {
      if via.write.Lands() {
        entries := content;
      }
      r := if via.write.Done? then Value(()) else Raised(WriteFailed);
    }

    method RecordStarted(entry: Entry, via: Access) returns (r: Reply<(), LedgerError>)
      modifies this`entries
      ensures entries == After(old(entries), Record(entry, via))
      ensures r.Raised? <==> !via.write.Done?
      // The new entry comes last, after those of another identity.
      ensures via.write.Lands() && entry.repoId != "" && entry.projectId != "" && entry.auditKey != "" ==>
                && entries != [] && entries[|entries| - 1] == entry
                && forall e <- entries[..|entries| - 1] ::
                     (e.repoId != entry.repoId || e.auditKey != entry.auditKey || e.taskId != entry.taskId)
                     && e in old(entries) && via.readable
    {
      ghost var keep := (e: Entry) => !SameIdentity(e, entry);
      var seen := Seen(entries, via);
      var kept: seq<Entry> := [];
      assert seen[..0] == [];
      for i := 0 to |seen|
        invariant entries == old(entries) && kept == Filtered(seen[..i], keep)
      {
        FilterStep(seen, i, keep);
        if !SameIdentity(seen[i], entry) {
          kept := kept + [seen[i]];
        }
      }
      assert seen[..|seen|] == seen && kept == Others(seen, entry);
      forall e | e in kept ensures e in seen && !SameIdentity(e, entry) {
        FilteredMembers(seen, keep, e);
      }
      r := Write(kept + (if Decodable(entry) then [entry] else []), via);
    }

    method Prune(now: int, head: Option<string>, audited: map<string, string>, via: Access)
      returns (r: Reply<nat, LedgerError>)
      modifies this`entries
      ensures var t := Transaction.Prune(now, head, audited, via); var seen := Seen(old(entries), via);
              && entries == After(old(entries), t)
              && (r.Raised? <==> Raises(old(entries), t))
              && (r.Value? ==> r.value == |seen| - |Pruned(seen, now, head, audited)|)
    {
      hide Survives, Filtered, Live, FreshFor;
      ghost var keep := (e: Entry) => Survives(e, now, head, audited);
      var seen := Seen(entries, via);
      var retained: seq<Entry> := [];
      NothingFiltered(seen, keep);
      for i := 0 to |seen|
        invariant entries == old(entries) && |retained| <= i && retained == Filtered(seen[..i], keep)
        invariant |retained| == i ==> retained == seen[..i]
      {
        FilterStep(seen, i, keep);
        if Survives(seen[i], now, head, audited) {
          retained := retained + [seen[i]];
        }
      }
      assert seen[..|seen|] == seen && retained == Pruned(seen, now, head, audited);
      var removed := |seen| - |retained|;
      if removed > 0 {
        var _ :- Write(retained, via);
      }
      r := Value(removed);
    }

    // _pending_lookups
    method PendingLookups(repoId: string, now: int, cache: map<string, Lookup>, via: Access)
      returns (pending: seq<string>)
      ensures Distinct(pending)
      ensures forall id :: id in pending <==> id !in cache && Wanted(Seen(entries, via), repoId, now, id)
    {
      hide IsTerminalStatus;
      pending := [];
      var seen := Seen(entries, via);
      for i := 0 to |seen|
        invariant Distinct(pending)
        invariant forall id :: id in pending <==> id !in cache && Wanted(seen[..i], repoId, now, id)
      {
        var e := seen[i];
        ghost var before := pending;
        if WantsLookup(e, repoId, now) && e.taskId.value !in cache && e.taskId.value !in pending {
          pending := pending + [e.taskId.value];
        }
        forall id ensures id in pending <==> id !in cache && Wanted(seen[..i + 1], repoId, now, id) {
          WantedNext(seen, i, repoId, now, id);
        }
      }
      assert seen[..|seen|] == seen;
    }

    // _commit_reconciliation
    method CommitReconciliation(c: Commit, via: Access) returns (r: Reply<Reconciliation, LedgerError>)
      modifies this`entries
      ensures var t := Transaction.Reconcile(c, via); var seen := Seen(old(entries), via);
              && entries == After(old(entries), t)
              && (r.Raised? <==> Raises(old(entries), t))
              && (r.Value? ==> r.value == Reconciliation(ProjectedRuns(seen, c), SuppressedIds(seen, c)))
    {
      hide ReconcileEntry, Live, Filtered, ProjectedRuns, SuppressedIds;
      ghost var keep := (e: Entry) => OutcomeFor(e, c).retained;
      var projected: seq<AuditRun>, suppressed: set<string> := [], {};
      var seen := Seen(entries, via);
      var retained: seq<Entry> := [];
      var changed := false;
      NothingYet(seen, c, keep);
      for i := 0 to |seen|
        invariant entries == old(entries)
        invariant retained == Filtered(seen[..i], keep)
        invariant projected == ProjectedRuns(seen[..i], c)
        invariant suppressed == SuppressedIds(seen[..i], c)
        invariant if changed then |retained| < i else retained == seen[..i]
      {
        var e := seen[i];
        FilterStep(seen, i, keep);
        ProjectedNext(seen, i, c);
        SuppressedNext(seen, i, c);
        if e.repoId != c.repoId {
          retained := retained + [e];
        } else if !Live(e, c.now) {
          changed := true;
        } else {
          var outcome := ReconcileEntry(e, c);
          if outcome.suppress.Some? {
            suppressed := suppressed + {outcome.suppress.value};
          }
          if !outcome.retained {
            changed := true;
            DroppedIsNotProjected(e, c);
          } else {
            retained := retained + [e];
            if outcome.projected.Some? {
              projected := projected + [outcome.projected.value];
            }
          }
        }
      }
      assert seen[..|seen|] == seen && retained == KeptEntries(seen, c);
      if changed {
        var _ :- Write(retained, via);
      }
      r := Value(Reconciliation(projected, suppressed));
    }

    // What other threads and processes do to the file between two locked sections.
    method Interfere(transactions: seq<Transaction>)
      modifies this`entries
      ensures entries == AfterAll(old(entries), transactions)
    {
      for i := 0 to |transactions|
        invariant AfterAll(entries, transactions[i..]) == AfterAll(old(entries), transactions)
      {
        assert transactions[i..][0] == transactions[i] && transactions[i..][1..] == transactions[i + 1..];
        entries := After(entries, transactions[i]);
      }
      assert transactions[|transactions|..] == [];
    }

    // reconcile. The rounds say what happens to the file before each locked section, the
    // last one before the commit. Every task wanted in the last round performed was looked
    // up, and nothing that no round wanted.
    method Reconcile(repoId: string, upstream: seq<AuditRun>, lookup: string -> Lookup, now: int,
                     rounds: seq<Round>)
      returns (r: Reply<seq<AuditRun>, LedgerError>, ghost performed: nat, ghost lookedUp: seq<string>,
               ghost commit: Commit)
      requires |rounds| == MAX_LOOKUP_ROUNDS + 1
      modifies this`entries
      ensures 0 < performed <= 3
      ensures var before := AfterAll(old(entries), Interference(rounds, performed));
              var t := Transaction.Reconcile(commit, rounds[MAX_LOOKUP_ROUNDS].via);
              && entries == After(before, t)
              && (r.Raised? <==> Raises(before, t))
              && (r.Value? ==> r.value == ReconciledRuns(Seen(before, t.via), commit))
      ensures commit == Commit(repoId, upstream, commit.cache, now, graceSeconds)
      ensures Distinct(lookedUp) && CacheOf(commit.cache, lookedUp, lookup)
      ensures forall id :: Wanted(SeenInRound(old(entries), rounds, performed - 1), repoId, now, id) ==> id in lookedUp
      ensures forall id <- lookedUp ::
                exists k: nat | k < performed :: Wanted(SeenInRound(old(entries), rounds, k), repoId, now, id)
    {
      hide After, AfterAll, ProjectedRuns, SuppressedIds, UnsuppressedRuns, Deduped, Wanted, CacheOf, Distinct,
           Seen, Raises;
      var cache: map<string, Lookup> := map[];
      lookedUp, performed := [], 0;
      AfterNone(entries);
      NoLookups(lookup);
      for round := 0 to MAX_LOOKUP_ROUNDS
        invariant performed == round && rounds[..round + 1][..round] == rounds[..round]
        invariant entries == AfterAll(old(entries), OthersIn(rounds[..round]))
        invariant Distinct(lookedUp) && CacheOf(cache, lookedUp, lookup)
        invariant round > 0 ==>
                    forall id :: Wanted(SeenInRound(old(entries), rounds, round - 1), repoId, now, id) ==>
                      id in lookedUp
        invariant forall id <- lookedUp ::
                    exists k: nat | k < round :: Wanted(SeenInRound(old(entries), rounds, k), repoId, now, id)
      {
        AfterAppend(old(entries), OthersIn(rounds[..round]), rounds[round].others);
        Interfere(rounds[round].others);
        var pending := PendingLookups(repoId, now, cache, rounds[round].via);
        CachedIds(cache, lookedUp, lookup);
        performed := round + 1;
        if pending == [] {
          break;
        }
        var resolved := ResolveLookups(pending, lookup, cache);
        LookupsExtend(lookedUp, pending, cache, resolved, lookup);
        cache := resolved;
        lookedUp := lookedUp + pending;
        assert rounds[..round + 2][..round + 1] == rounds[..round + 1];
      }
      AfterAppend(old(entries), OthersIn(rounds[..performed]), rounds[MAX_LOOKUP_ROUNDS].others);
      Interfere(rounds[MAX_LOOKUP_ROUNDS].others);
      commit := Commit(repoId, upstream, cache, now, graceSeconds);
      var decided :- CommitReconciliation(Commit(repoId, upstream, cache, now, graceSeconds),
                                          rounds[MAX_LOOKUP_ROUNDS].via);
      var runs := DedupeRuns(decided.projected + UnsuppressedRuns(upstream, decided.suppressed));
      r := Value(runs);
    }
  }

  lemma NothingFiltered(entries: seq<Entry>, keep: Entry -> bool)
    ensures Filtered(entries[..0], keep) == []
  {
  }

  lemma NothingYet(entries: seq<Entry>, c: Commit, keep: Entry -> bool)
    ensures Filtered(entries[..0], keep) == [] && ProjectedRuns(entries[..0], c) == []
            && SuppressedIds(entries[..0], c) == {}
  {
  }

  lemma ProjectedNext(entries: seq<Entry>, i: nat, c: Commit)
    requires i < |entries|
    ensures var projected := OutcomeFor(entries[i], c).projected;
            ProjectedRuns(entries[..i + 1], c) ==
            ProjectedRuns(entries[..i], c) + (if projected.Some? then [projected.value] else [])
  {
    assert entries[..i + 1][..i] == entries[..i] && entries[..i + 1][i] == entries[i];
  }

  lemma NoLookups(lookup: string -> Lookup)
    ensures Distinct([]) && CacheOf(map[], [], lookup)
  {
  }

  lemma CachedIds(cache: map<string, Lookup>, lookedUp: seq<string>, lookup: string -> Lookup)
    requires CacheOf(cache, lookedUp, lookup)
    ensures forall id :: id in cache <==> id in lookedUp
  {
  }

  // Ids that were not cached before stay distinct from those that were.
  lemma LookupsExtend(lookedUp: seq<string>, pending: seq<string>, cache: map<string, Lookup>,
                      resolved: map<string, Lookup>,
                      lookup: string -> Lookup)
    requires Distinct(lookedUp) && Distinct(pending) && CacheOf(cache, lookedUp, lookup)
    requires forall id <- pending :: id !in cache
    requires forall id :: id in resolved <==> id in cache || id in pending
    requires forall id <- resolved :: resolved[id] == if id in pending then lookup(id) else cache[id]
    ensures Distinct(lookedUp + pending) && CacheOf(resolved, lookedUp + pending, lookup)
  {
    forall i, j | 0 <= i < j < |lookedUp + pending| ensures (lookedUp + pending)[i] != (lookedUp + pending)[j] {
      if i < |lookedUp| <= j {
        assert lookedUp[i] in cache && pending[j - |lookedUp|] in pending;
      }
    }
  }

  // Every undecided entry with a task id that the last round saw is decided by an answer for
  // that very task, and nothing is looked up for any other reason.
  lemma WantedIsExact(entries: seq<Entry>, c: Commit, id: string)
    ensures Wanted(entries, c.repoId, c.now, id) <==> exists e <- entries :: Undecided(e, c) && e.taskId == Some(id)
  {
    hide IsTerminalStatus;
    forall e | e in entries && e.taskId == Some(id) && Undecided(e, c) ensures Wanted(entries, c.repoId, c.now, id) {
    }
    if Wanted(entries, c.repoId, c.now, id) {
      var e :| e in entries && e.taskId == Some(id) && e.repoId == c.repoId && c.now < e.expires.at
               && !IsTerminalStatus(e.taskStatus);
      assert Undecided(e, c);
    }
  }

  lemma WantedNext(entries: seq<Entry>, i: nat, repoId: string, now: int, id: string)
    requires i < |entries|
    ensures Wanted(entries[..i + 1], repoId, now, id) <==>
            Wanted(entries[..i], repoId, now, id)
              || (WantsLookup(entries[i], repoId, now) && entries[i].taskId.value == id)
  {
    hide IsTerminalStatus;
    assert entries[..i + 1] == entries[..i] + [entries[i]];
    assert entries[i] in entries[..i + 1];
  }

  lemma SuppressedNext(entries: seq<Entry>, i: nat, c: Commit)
    requires i < |entries|
    ensures var suppress := OutcomeFor(entries[i], c).suppress;
            SuppressedIds(entries[..i + 1], c) ==
            SuppressedIds(entries[..i], c) + (if suppress.Some? then {suppress.value} else {})
  {
    hide OutcomeFor;
    assert entries[..i + 1] == entries[..i] + [entries[i]];
    var suppress := OutcomeFor(entries[i], c).suppress;
    forall id ensures id in SuppressedIds(entries[..i + 1], c) <==>
                      id in SuppressedIds(entries[..i], c) || suppress == Some(id) {
      if suppress == Some(id) {
        assert entries[i] in entries[..i + 1];
      } else if id in SuppressedIds(entries[..i], c) {
        var e :| e in entries[..i] && OutcomeFor(e, c).suppress == Some(id);
        assert e in entries[..i + 1];
      }
    }
  }

  lemma DroppedIsNotProjected(e: Entry, c: Commit)
    requires !ReconcileEntry(e, c).retained
    ensures ReconcileEntry(e, c).projected.None?
  {
  }
}
