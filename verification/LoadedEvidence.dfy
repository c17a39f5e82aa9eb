/** What the evidence stage lets through and what it hands on, field by field. */
module LoadedEvidence {
  import opened Wrappers
  import opened Ordering
  import opened RunRecords
  import opened RunProtocol
  import opened EvidenceKeys
  import opened AggregationRecords
  import opened EvidenceIntegrity
  import L = Lifecycle
  import Text

  /** The entry of a successful finalization. */
  predicate Finishes(e: L.Entry) {
    e.to == L.Completed && (Text.StartsWith(e.reason, "finalization_") || e.actor == "finalization_handler")
  }

  /** Eligibility asks for four things, in this order, and names the first that is missing. */
  lemma EligibleIff(a: L.Audit)
    ensures var completed := a.state == L.Completed;
            var finalized := a.finalization.Some?;
            var counted := finalized && a.finalization.value.count > 0 && !a.finalization.value.zero;
            var finished := exists i :: 0 <= i < |a.history| && Finishes(a.history[i]);
            && (Eligibility(a).Ok? <==> completed && finalized && counted && finished)
            && (Eligibility(a) == Err(AuditNotCompleted) <==> !completed)
            && (Eligibility(a) == Err(MissingFinalization) <==> completed && !finalized)
            && (Eligibility(a) == Err(ZeroExecutionAudit) <==> completed && finalized && !counted)
            && (Eligibility(a) == Err(MissingSuccessfulTransition) <==> completed && counted && !finished)
  {
    assert forall e :: Finishes(e) <==> SuccessfulTransition(e);
  }

  /** The runs considered are the COMPLETED v1 ones with an evidence key, ordered by run id. */
  lemma CompletedRunsAre(items: seq<RunRecord>)
    ensures var runs := CompletedRuns(items);
            && (forall r :: r in runs <==> r in items && r.status == Completed && r.version == Some("v1")
                                           && r.rawKey.Some? && r.rawKey.value != "")
            && (forall i, j :: 0 <= i < j < |runs| ==> StringLe(runs[i].runId, runs[j].runId))
            && forall r :: multiset(runs)[r] == if r in runs then multiset(items)[r] else 0
  {
    CompletedMembers(items);
    StringLeIsOrder();
    var runs := CompletedRuns(items);
    SortSorted(UsableRuns(items), RunLe());
    forall i, j | 0 <= i < j < |runs| ensures StringLe(runs[i].runId, runs[j].runId) {
      assert RunLe()(runs[i], runs[j]);
    }
    SortElements(UsableRuns(items), RunLe());
    forall r ensures multiset(runs)[r] == if r in runs then multiset(items)[r] else 0 {
      UsableCounts(items, r);
    }
  }

  lemma {:induction false} UsableCounts(items: seq<RunRecord>, r: RunRecord)
    ensures multiset(UsableRuns(items))[r] == if Usable(r) then multiset(items)[r] else 0
    ensures r in items <==> multiset(items)[r] > 0
  {
    if items != [] {
      var front := items[..|items| - 1];
      assert items == front + [items[|items| - 1]];
      UsableCounts(front, r);
    }
  }

  // ---- loading ----

  /** A record that takes everything over from result i of a run's evidence. */
  predicate TakenFrom(record: RawRecord, run: RunRecord, i: nat, result: EndpointResult) {
    && record.runId == run.runId && run.rawKey == Some(record.key) && record.s3Version == None && record.index == i
    && record.endpointId == result.endpointId && record.timestamp == result.timestamp && record.time == result.time
    && record.duration == result.duration && record.statusCode == result.statusCode
    && record.failureType == result.failureType
  }

  /** The evidence of a run can be read: its key is safe and holds an object of version v1 that
      names the client, the audit and the run. */
  predicate Readable(objects: Objects, run: RunRecord, client: string, audit: string) {
    && run.rawKey.Some? && SafeKey(run.rawKey.value, client, audit)
    && run.rawKey.value in objects
    && var e := objects[run.rawKey.value];
    e.version == "v1" && e.client == client && e.audit == audit && e.run == run.runId
  }

  function ResultsOf(objects: Objects, run: RunRecord): seq<EndpointResult> {
    if run.rawKey.Some? && run.rawKey.value in objects then objects[run.rawKey.value].results else []
  }

  /** How many results the first n runs have. */
  function Offset(objects: Objects, runs: seq<RunRecord>, n: nat): (k: nat)
    requires n <= |runs|
  {
    if n == 0 then 0 else Offset(objects, runs, n - 1) + |ResultsOf(objects, runs[n - 1])|
  }

  /** The records list each result of each run, run after run. */
  ghost predicate ListsResults(records: seq<RawRecord>, objects: Objects, runs: seq<RunRecord>) {
    && |records| == Offset(objects, runs, |runs|)
    && forall n, i :: 0 <= n < |runs| && 0 <= i < |ResultsOf(objects, runs[n])| ==> Lists(records, objects, runs, n, i)
  }

  predicate Lists(records: seq<RawRecord>, objects: Objects, runs: seq<RunRecord>, n: nat, i: nat)
    requires n < |runs| && i < |ResultsOf(objects, runs[n])|
  {
    var at := Offset(objects, runs, n) + i;
    at < |records| && TakenFrom(records[at], runs[n], i, ResultsOf(objects, runs[n])[i])
  }

  lemma {:induction false} OffsetPrefix(objects: Objects, runs: seq<RunRecord>, more: RunRecord, n: nat)
    requires n <= |runs|
    ensures Offset(objects, runs + [more], n) == Offset(objects, runs, n)
  {
    if n > 0 {
      OffsetPrefix(objects, runs, more, n - 1);
    }
  }

  lemma ListsMore(records: seq<RawRecord>, objects: Objects, runs: seq<RunRecord>, more: RunRecord, tail: seq<RawRecord>)
    requires ListsResults(records, objects, runs) && |tail| == |ResultsOf(objects, more)|
    requires forall i :: 0 <= i < |tail| ==> TakenFrom(tail[i], more, i, ResultsOf(objects, more)[i])
    ensures ListsResults(records + tail, objects, runs + [more])
  {
    var all := runs + [more];
    OffsetPrefix(objects, runs, more, |runs|);
    forall n, i | 0 <= n < |all| && 0 <= i < |ResultsOf(objects, all[n])| ensures Lists(records + tail, objects, all, n, i) {
      OffsetPrefix(objects, runs, more, n);
      if n < |runs| {
        assert Lists(records, objects, runs, n, i);
      }
    }
  }

  /** Loading succeeds exactly when every run's evidence can be read, and then hands on every
      result of every run, each field of it, numbered within its run. */
  lemma {:induction false} LoadedIff(objects: Objects, runs: seq<RunRecord>, client: string, audit: string)
    ensures LoadAll(objects, runs, client, audit).Ok? <==> forall n :: 0 <= n < |runs| ==> Readable(objects, runs[n], client, audit)
    ensures LoadAll(objects, runs, client, audit).Ok? ==>
              ListsResults(LoadAll(objects, runs, client, audit).value, objects, runs)
    decreases |runs|
  {
    if runs != [] {
      var front, last := runs[..|runs| - 1], runs[|runs| - 1];
      assert runs == front + [last];
      LoadedIff(objects, front, client, audit);
      if LoadAll(objects, front, client, audit).Ok? && Readable(objects, last, client, audit) {
        ListsMore(LoadAll(objects, front, client, audit).value, objects, front, last,
                  LoadOne(objects, last, client, audit).value);
      }
    }
  }

  /** When it fails, the reason is that of the first run whose evidence cannot be read: an
      unsafe key, then a missing object, then a foreign one. */
  lemma {:induction false} LoadFailsWith(objects: Objects, runs: seq<RunRecord>, n: nat, client: string, audit: string)
    requires n < |runs| && !Readable(objects, runs[n], client, audit)
    requires forall i :: 0 <= i < n ==> Readable(objects, runs[i], client, audit)
    ensures LoadAll(objects, runs, client, audit) ==
            Err(if runs[n].rawKey.None? || !SafeKey(runs[n].rawKey.value, client, audit) then UnsafeRawResultKey
                else if runs[n].rawKey.value !in objects then MissingRawEvidence
                else InvalidEnvelope)
  {
    LoadedIff(objects, runs[..n], client, audit);
    assert runs[..n + 1][..n] == runs[..n];
    LoadFailsEarly(objects, runs, n + 1, client, audit);
  }

  // ---- the gate ----

  predicate FromRun(record: RawRecord, runs: seq<RunRecord>) {
    exists j :: 0 <= j < |runs| && runs[j].runId == record.runId
  }

  predicate HasRecord(run: RunRecord, records: seq<RawRecord>) {
    exists i :: 0 <= i < |records| && records[i].runId == run.runId
  }

  predicate SamePlace(a: RawRecord, b: RawRecord) {
    a.key == b.key && a.s3Version == b.s3Version && a.runId == b.runId && a.index == b.index
  }

  /** The gate, in terms of runs and records: an eligible, identified audit with a configuration
      version; as many completed runs as were recorded; every record from one of them, and one
      at least from each; no two records from the same place; and each naming a run, an
      object and an endpoint. */
  lemma GateAcceptsIff(a: L.Audit, runs: seq<RunRecord>, records: seq<RawRecord>, exec: string, cfg: string)
    ensures Validated(a, runs, records, exec, cfg).Ok? <==>
            && Eligibility(a).Ok? && exec != "" && cfg != ""
            && runs != [] && records != [] && a.finalization.value.count == |runs|
            && (forall i :: 0 <= i < |records| ==> FromRun(records[i], runs))
            && (forall j :: 0 <= j < |runs| ==> HasRecord(runs[j], records))
            && (forall i, j :: 0 <= i < j < |records| ==> !SamePlace(records[i], records[j]))
            && (forall i :: 0 <= i < |records| ==> records[i].runId != "" && records[i].key != "" && records[i].endpointId != "")
  {
    AcceptedIff(a, runs, records, exec, cfg);
    RecordsFromRuns(runs, records);
    RunsHaveRecords(runs, records);
    forall i, j | 0 <= i < j < |records| ensures SamePlace(records[i], records[j]) <==> records[i].Ref() == records[j].Ref() {
    }
  }

  lemma RecordsFromRuns(runs: seq<RunRecord>, records: seq<RawRecord>)
    ensures RecordRunIds(records) <= RunIds(runs) <==> forall i :: 0 <= i < |records| ==> FromRun(records[i], runs)
  {
    forall i | 0 <= i < |records| ensures records[i].runId in RecordRunIds(records) {
      assert records[i] in records;
    }
    forall i | 0 <= i < |records| ensures FromRun(records[i], runs) <==> records[i].runId in RunIds(runs) {
      NamedRun(records[i], runs);
    }
  }

  lemma NamedRun(record: RawRecord, runs: seq<RunRecord>)
    ensures FromRun(record, runs) <==> record.runId in RunIds(runs)
  {
    if record.runId in RunIds(runs) {
      var r :| r in runs && r.runId == record.runId;
    }
  }

  lemma RunsHaveRecords(runs: seq<RunRecord>, records: seq<RawRecord>)
    ensures RunIds(runs) <= RecordRunIds(records) <==> forall j :: 0 <= j < |runs| ==> HasRecord(runs[j], records)
  {
    forall j | 0 <= j < |runs| ensures runs[j].runId in RunIds(runs) {
      assert runs[j] in runs;
    }
    forall j | 0 <= j < |runs| ensures HasRecord(runs[j], records) <==> runs[j].runId in RecordRunIds(records) {
      NamedRecord(runs[j], records);
    }
  }

  lemma NamedRecord(run: RunRecord, records: seq<RawRecord>)
    ensures HasRecord(run, records) <==> run.runId in RecordRunIds(records)
  {
    if run.runId in RecordRunIds(records) {
      var r :| r in records && r.runId == run.runId;
    }
  }
}
