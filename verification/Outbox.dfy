// The outcome outbox (auth_session/store.py): terminal outcomes awaiting the sink's
// acknowledgement, in order, with unique event keys.
module Outbox {
  import opened Wrappers
  import opened StateMachine
  import opened Journal

  datatype OutboxRecord = OutboxRecord(outcome: RotationOutcome, key: string)

  // _outbox_record
  function RecordOf(state: RotationState): OutboxRecord
    requires state.Terminal()
  {
    OutboxRecord(OutcomeOf(state), KeyOf(state))
  }

  function Keys(records: seq<OutboxRecord>): set<string> {
    set r <- records :: r.key
  }

  predicate Unique(records: seq<OutboxRecord>) {
    forall i, j :: 0 <= i < j < |records| ==> records[i].key != records[j].key
  }

  // enqueue_outcome: append unless the key is already waiting.
  function Enqueued(records: seq<OutboxRecord>, record: OutboxRecord): seq<OutboxRecord> {
    if record.key in Keys(records) then records else records + [record]
  }

  // acknowledge_outcome: everything but the acknowledged key, in order.
  function Acknowledged(records: seq<OutboxRecord>, key: string): seq<OutboxRecord> {
    if records == [] then []
    else (if records[0].key == key then [] else [records[0]]) + Acknowledged(records[1..], key)
  }

  lemma KeysOfAppend(a: seq<OutboxRecord>, b: seq<OutboxRecord>)
    ensures Keys(a + b) == Keys(a) + Keys(b)
  {
    forall k | k in Keys(a) + Keys(b) ensures k in Keys(a + b) {
      if k in Keys(a) {
        var r :| r in a && r.key == k;
        assert r in a + b;
      } else {
        var r :| r in b && r.key == k;
        assert r in a + b;
      }
    }
  }

  lemma KeysAfterEnqueue(records: seq<OutboxRecord>, record: OutboxRecord)
    ensures Keys(Enqueued(records, record)) == Keys(records) + {record.key}
  {
    KeysOfAppend(records, [record]);
    assert Keys([record]) == {record.key};
  }

  lemma EnqueueKeepsUnique(records: seq<OutboxRecord>, record: OutboxRecord)
    requires Unique(records)
    ensures Unique(Enqueued(records, record))
    ensures Keys(Enqueued(records, record)) == Keys(records) + {record.key}
    ensures records <= Enqueued(records, record)
  {
    KeysAfterEnqueue(records, record);
    if record.key !in Keys(records) {
      forall i | 0 <= i < |records| ensures records[i].key != record.key {
        assert records[i] in records;
      }
    }
  }

  lemma {:induction false} AcknowledgedMembers(records: seq<OutboxRecord>, key: string, r: OutboxRecord)
    ensures r in Acknowledged(records, key) <==> r in records && r.key != key
  {
    if records != [] {
      AcknowledgedMembers(records[1..], key, r);
      assert records == [records[0]] + records[1..];
    }
  }

  // Acknowledging removes exactly the acknowledged key.
  lemma AcknowledgeRemovesOneKey(records: seq<OutboxRecord>, key: string)
    ensures Keys(Acknowledged(records, key)) == Keys(records) - {key}
    ensures forall r :: r in Acknowledged(records, key) <==> r in records && r.key != key
  {
    forall r ensures r in Acknowledged(records, key) <==> r in records && r.key != key {
      AcknowledgedMembers(records, key, r);
    }
  }

  lemma {:induction false} AcknowledgeKeepsUnique(records: seq<OutboxRecord>, key: string)
    requires Unique(records)
    ensures Unique(Acknowledged(records, key))
  {
    if records != [] {
      AcknowledgeKeepsUnique(records[1..], key);
      if records[0].key != key {
        var tail := Acknowledged(records[1..], key);
        forall i | 0 <= i < |tail| ensures tail[i].key != records[0].key {
          AcknowledgedMembers(records[1..], key, tail[i]);
          assert tail[i] in records[1..];
        }
      }
    }
  }

  // ------------------------------------------------------------------ the file

  datatype RecordPayload = RecordPayload(isObject: bool, outcome: Json, key: Json)
  // `records` is absent when the field is not a list.
  datatype OutboxPayload = OutboxPayload(version: Json, records: Option<seq<RecordPayload>>)
  datatype OutboxLoad = OutboxAbsent | OutboxCorrupt | OutboxIoFailure | OutboxLoaded(records: seq<OutboxRecord>)

  const OUTBOX_VERSION := 2

  function RecordPayloadOf(record: OutboxRecord): RecordPayload {
    RecordPayload(true, Str(OutcomeName(record.outcome)), Str(record.key))
  }

  function PayloadOfRecords(records: seq<OutboxRecord>): OutboxPayload {
    OutboxPayload(Int(OUTBOX_VERSION),
                  Some(seq(|records|, i requires 0 <= i < |records| => RecordPayloadOf(records[i]))))
  }

  predicate EndsWith(text: string, suffix: string) {
    |suffix| <= |text| && text[|text| - |suffix|..] == suffix
  }

  predicate WellFormed(record: OutboxRecord) {
    record.key != "" && EVENT_KEY_PREFIX <= record.key && EndsWith(record.key, ":" + OutcomeName(record.outcome))
  }

  // Prefix and suffix can only share the colon.
  lemma ShortKeys(record: OutboxRecord)
    requires WellFormed(record) && |record.key| < 15 + |OutcomeName(record.outcome)|
    ensures record.key == "auth-rotation" + ":" + OutcomeName(record.outcome)
  {
    var key, suffix := record.key, ":" + OutcomeName(record.outcome);
    var n := |key| - |suffix|;
    assert key == key[..n] + suffix && key[..14] == EVENT_KEY_PREFIX;
    assert key[n] == ':';
    assert EVENT_KEY_PREFIX == "auth-rotation:";
    forall i | 0 <= i < 13 ensures EVENT_KEY_PREFIX[i] != ':' {
    }
    assert n == 13;
    assert key[..13] == "auth-rotation";
  }

  lemma LongKeys(record: OutboxRecord)
    requires WellFormed(record) && |record.key| >= 15 + |OutcomeName(record.outcome)|
    ensures exists source: Revision :: record.key == EventKey(source, record.outcome)
  {
    hide OutcomeName;
    var key, suffix := record.key, ":" + OutcomeName(record.outcome);
    var n := |key| - |suffix|;
    var source := key[14..n];
    assert |EVENT_KEY_PREFIX| == 14;
    assert key == EVENT_KEY_PREFIX + source + suffix;
    assert key == EVENT_KEY_PREFIX + source + ":" + OutcomeName(record.outcome);
    assert key == EventKey(source, record.outcome);
  }

  lemma EventKeysAreWellFormed(record: OutboxRecord, source: Revision)
    requires record.key == EventKey(source, record.outcome)
    ensures WellFormed(record)
  {
    hide OutcomeName;
    assert record.key == EVENT_KEY_PREFIX + source + (":" + OutcomeName(record.outcome));
  }

  // A record is well formed exactly when its key is the event key of its outcome for some
  // revision, or that of no revision at all, where the two colons are one.
  lemma WellFormedKeysExactly(record: OutboxRecord)
    ensures WellFormed(record) <==>
            || (exists source: Revision :: record.key == EventKey(source, record.outcome))
            || record.key == "auth-rotation" + ":" + OutcomeName(record.outcome)
  {
    hide OutcomeName, EventKey;
    if WellFormed(record) {
      if |record.key| >= 15 + |OutcomeName(record.outcome)| { LongKeys(record); } else { ShortKeys(record); }
    }
    forall source: Revision | record.key == EventKey(source, record.outcome) ensures WellFormed(record) {
      EventKeysAreWellFormed(record, source);
    }
    var suffix := ":" + OutcomeName(record.outcome);
    if record.key == "auth-rotation" + ":" + OutcomeName(record.outcome) {
      assert EVENT_KEY_PREFIX == "auth-rotation" + ":";
      assert record.key == "auth-rotation" + suffix && record.key == EVENT_KEY_PREFIX + OutcomeName(record.outcome);
    }
  }

  function ParseOutcome(name: string): Option<RotationOutcome> {
    if name == "rotated" then Some(RotatedOutcome)
    else if name == "rejected" then Some(RejectedOutcome)
    else if name == "outcome_unknown" then Some(UnknownOutcome)
    else None
  }

  function ParseRecord(p: RecordPayload): Option<OutboxRecord> {
    if !p.isObject || !p.key.IsNonEmptyText() || !p.outcome.Str? then None
    else match ParseOutcome(p.outcome.s)
      case None => None
      case Some(outcome) =>
        if WellFormed(OutboxRecord(outcome, p.key.s)) then Some(OutboxRecord(outcome, p.key.s)) else None
  }

  lemma OutcomeNamesParse(outcome: RotationOutcome)
    ensures ParseOutcome(OutcomeName(outcome)) == Some(outcome)
  {
    assert |"rotated"| == 7 && |"rejected"| == 8 && |"outcome_unknown"| == 15;
  }

  lemma EveryTerminalRecordIsWellFormed(state: RotationState)
    requires state.Terminal()
    ensures WellFormed(RecordOf(state))
    ensures ParseRecord(RecordPayloadOf(RecordOf(state))) == Some(RecordOf(state))
  {
    var suffix := ":" + OutcomeName(OutcomeOf(state));
    assert KeyOf(state) == EVENT_KEY_PREFIX + state.source + suffix;
    OutcomeNamesParse(OutcomeOf(state));
  }

  predicate AllParse(raw: seq<RecordPayload>) {
    forall i :: 0 <= i < |raw| ==> ParseRecord(raw[i]).Some?
  }

  function Parsed(raw: seq<RecordPayload>): (records: seq<OutboxRecord>)
    requires AllParse(raw)
    ensures |records| == |raw|
    ensures forall i :: 0 <= i < |raw| ==> records[i] == ParseRecord(raw[i]).value
  {
    seq(|raw|, i requires 0 <= i < |raw| && AllParse(raw) => ParseRecord(raw[i]).value)
  }

  // The records of a well-formed file; corrupt when a record is bad or a key repeats.
  function LoadOf(p: OutboxPayload): (load: OutboxLoad)
    ensures load.OutboxLoaded? ==> Unique(load.records)
  {
    if p.version != Int(OUTBOX_VERSION) || p.records.None? then OutboxCorrupt
    else
      var raw := p.records.value;
      if AllParse(raw) && Unique(Parsed(raw)) then OutboxLoaded(Parsed(raw)) else OutboxCorrupt
  }

  // _parse_outbox
  method ParseOutbox(p: OutboxPayload) returns (load: OutboxLoad)
    ensures load == LoadOf(p)
  {
    if p.version != Int(OUTBOX_VERSION) || p.records.None? {
      return OutboxCorrupt;
    }
    var raw := p.records.value;
    var records: seq<OutboxRecord> := [];
    var eventKeys: set<string> := {};
    for n := 0 to |raw|
      invariant |records| == n
      invariant forall i :: 0 <= i < n ==> ParseRecord(raw[i]) == Some(records[i])
      invariant Unique(records)
      invariant eventKeys == Keys(records)
    {
      var record := ParseRecord(raw[n]);
      if record.None? {
        return OutboxCorrupt;
      }
      if record.value.key in eventKeys {
        var i :| 0 <= i < n && records[i].key == record.value.key;
        assert AllParse(raw) ==> Parsed(raw)[i].key == Parsed(raw)[n].key;
        return OutboxCorrupt;
      }
      EnqueueKeepsUnique(records, record.value);
      eventKeys := eventKeys + {record.value.key};
      records := records + [record.value];
    }
    assert records == Parsed(raw);
    return OutboxLoaded(records);
  }

  // A written outbox loads back as itself exactly when its keys are unique and each
  // record is well formed.
  lemma OutboxRoundTrip(records: seq<OutboxRecord>)
    ensures LoadOf(PayloadOfRecords(records)) == OutboxLoaded(records) <==>
            Unique(records) && forall r <- records :: WellFormed(r)
  {
    var p := PayloadOfRecords(records);
    forall i | 0 <= i < |records|
      ensures ParseRecord(p.records.value[i]) == if WellFormed(records[i]) then Some(records[i]) else None
    {
      OutcomeNamesParse(records[i].outcome);
    }
    var load := LoadOf(p);
    if forall r <- records :: WellFormed(r) {
      assert forall i :: 0 <= i < |records| ==> records[i] in records;
      assert Parsed(p.records.value) == records;
    } else if load.OutboxLoaded? {
      forall i | 0 <= i < |records| ensures WellFormed(records[i]) {
        assert ParseRecord(p.records.value[i]).Some?;
      }
    }
  }
}
