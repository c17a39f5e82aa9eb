/** What the aggregation stage demands of an audit's evidence: eligibility of the audit,
    loading of the completed runs, and the fail-closed evidence gate. */
module EvidenceIntegrity {
  import opened Wrappers
  import opened RunRecords
  import opened RunProtocol
  import opened EvidenceKeys
  import opened AggregationRecords
  import opened Ordering
  import L = Lifecycle
  import Text

  datatype Reason =
    | AuditNotCompleted | MissingFinalization | ZeroExecutionAudit | MissingSuccessfulTransition
    | MissingExecutionId | MissingConfigVersion | MissingRawEvidence | ExecutionCountMismatchCompletedRuns
    | OrphanedRawResultRecords | ExecutionCountMismatchRawResults | DuplicateRawResultReference | LineageIncomplete
    | UnsafeRawResultKey | InvalidEnvelope

  // ---- eligibility ----

  predicate SuccessfulTransition(e: L.Entry) {
    e.to.Completed? && (Text.StartsWith(e.reason, "finalization_") || e.actor == "finalization_handler")
  }

  predicate HasSuccessfulTransition(history: seq<L.Entry>) {
    exists i :: 0 <= i < |history| && SuccessfulTransition(history[i])
  }

  function Eligibility(a: L.Audit): Result<(), Reason> {
    if !a.state.Completed? then Err(AuditNotCompleted)
    else if a.finalization.None? then Err(MissingFinalization)
    else if a.finalization.value.count == 0 || a.finalization.value.zero then Err(ZeroExecutionAudit)
    else if !HasSuccessfulTransition(a.history) then Err(MissingSuccessfulTransition)
    else Ok(())
  }

  // ---- completed runs ----

  function RunLe(): (RunRecord, RunRecord) -> bool {
    (a: RunRecord, b: RunRecord) => StringLe(a.runId, b.runId)
  }

  predicate Usable(r: RunRecord) {
    r.status.Completed? && r.version == Some(RAW_RESULT_VERSION) && r.rawKey.Some? && r.rawKey.value != ""
  }

  function UsableRuns(items: seq<RunRecord>): (m: seq<RunRecord>)
    ensures forall r :: r in m <==> r in items && Usable(r)
  {
    if items == [] then []
    else
      var last := items[|items| - 1];
      var rest := UsableRuns(items[..|items| - 1]);
      assert items == items[..|items| - 1] + [last];
      if Usable(last) then rest + [last] else rest
  }

  /** Completed runs with evidence, in sort-key order. */
  function CompletedRuns(items: seq<RunRecord>): seq<RunRecord> {
    Sort(UsableRuns(items), RunLe())
  }

  method ListCompletedRuns(items: seq<RunRecord>) returns (runs: seq<RunRecord>)
    ensures runs == CompletedRuns(items)
  {
    runs := [];
    for i := 0 to |items|
      invariant runs == UsableRuns(items[..i])
    {
      assert items[..i + 1][..i] == items[..i];
      if Usable(items[i]) {
        runs := runs + [items[i]];
      }
    }
    assert items[..|items|] == items;
    runs := Sort(runs, RunLe());
  }

  lemma CompletedMembers(items: seq<RunRecord>)
    ensures forall r :: r in CompletedRuns(items) <==> r in items && Usable(r)
    ensures |CompletedRuns(items)| == |UsableRuns(items)|
  {
    var u, c := UsableRuns(items), CompletedRuns(items);
    SortElements(u, RunLe());
    forall r ensures r in c <==> r in u {
      assert r in c <==> r in multiset(c);
      assert r in u <==> r in multiset(u);
    }
  }

  // ---- loading ----

  type Objects = map<string, Evidence>

  /** The records of one envelope, numbered by position. */
  function ToRecords(run: string, key: string, results: seq<EndpointResult>): (r: seq<RawRecord>)
    ensures |r| == |results|
  {
    seq(|results|, i requires 0 <= i < |results| =>
      RawRecord(run, key, None, i, results[i].endpointId, results[i].timestamp, results[i].time, results[i].duration,
                results[i].statusCode, results[i].failureType))
  }

  predicate EnvelopeMatches(e: Evidence, client: string, audit: string, run: string) {
    e.version == RAW_RESULT_VERSION && e.client == client && e.audit == audit && e.run == run
  }

  function LoadOne(objects: Objects, r: RunRecord, client: string, audit: string): Result<seq<RawRecord>, Reason> {
    if r.rawKey.None? || !SafeKey(r.rawKey.value, client, audit) then Err(UnsafeRawResultKey)
    else if r.rawKey.value !in objects then Err(MissingRawEvidence)
    else if !EnvelopeMatches(objects[r.rawKey.value], client, audit, r.runId) then Err(InvalidEnvelope)
    else Ok(ToRecords(r.runId, r.rawKey.value, objects[r.rawKey.value].results))
  }

  function LoadAll(objects: Objects, runs: seq<RunRecord>, client: string, audit: string): Result<seq<RawRecord>, Reason> {
    if runs == [] then Ok([])
    else
      match LoadAll(objects, runs[..|runs| - 1], client, audit)
      case Err(e) => Err(e)
      case Ok(before) =>
        match LoadOne(objects, runs[|runs| - 1], client, audit)
        case Err(e) => Err(e)
        case Ok(more) => Ok(before + more)
  }

  lemma {:induction false} LoadFailsEarly(objects: Objects, runs: seq<RunRecord>, n: nat, client: string, audit: string)
    requires n <= |runs| && LoadAll(objects, runs[..n], client, audit).Err?
    ensures LoadAll(objects, runs, client, audit) == LoadAll(objects, runs[..n], client, audit)
    decreases |runs|
  {
    if n < |runs| {
      assert runs[..|runs| - 1][..n] == runs[..n];
      LoadFailsEarly(objects, runs[..|runs| - 1], n, client, audit);
    } else {
      assert runs[..n] == runs;
    }
  }

  /** Read each run's evidence in turn and number its results. */
  method LoadRecords(objects: Objects, runs: seq<RunRecord>, client: string, audit: string)
    returns (r: Result<seq<RawRecord>, Reason>)
    ensures r == LoadAll(objects, runs, client, audit)
  {
    var records: seq<RawRecord> := [];
    for n := 0 to |runs|
      invariant LoadAll(objects, runs[..n], client, audit) == Ok(records)
    {
      var one := LoadOne(objects, runs[n], client, audit);
      assert runs[..n + 1][..n] == runs[..n];
      if one.Err? {
        LoadFailsEarly(objects, runs, n + 1, client, audit);
        return Err(one.error);
      }
      var all := one.value;
      ghost var before := records;
      for i := 0 to |all|
        invariant records == before + all[..i]
      {
        records := records + [all[i]];
      }
      assert all[..|all|] == all;
    }
    assert runs[..|runs|] == runs;
    r := Ok(records);
  }

  // ---- the gate ----

  predicate Complete(r: RawRecord) {
    r.runId != "" && r.key != "" && r.endpointId != ""
  }

  /** The first fault among the first n records, in the order the loop looks. */
  function FirstFault(records: seq<RawRecord>, n: nat): Option<Reason>
    requires n <= |records|
  {
    if n == 0 then None
    else
      var before := FirstFault(records, n - 1);
      if before.Some? then before
      else if exists j :: 0 <= j < n - 1 && records[j].Ref() == records[n - 1].Ref() then Some(DuplicateRawResultReference)
      else if !Complete(records[n - 1]) then Some(LineageIncomplete)
      else None
  }

  function RunIds(runs: seq<RunRecord>): set<string> {
    set r | r in runs :: r.runId
  }

  function RecordRunIds(records: seq<RawRecord>): set<string> {
    set r | r in records :: r.runId
  }

  datatype Counts = Counts(expected: nat, runs: nat, records: nat)

  function Validated(a: L.Audit, runs: seq<RunRecord>, records: seq<RawRecord>, exec: string, cfg: string): Result<Counts, Reason> {
    var e := Eligibility(a);
    if e.Err? then Err(e.error)
    else if exec == "" then Err(MissingExecutionId)
    else if cfg == "" then Err(MissingConfigVersion)
    else if runs == [] || records == [] then Err(MissingRawEvidence)
    else if a.finalization.value.count != |runs| then Err(ExecutionCountMismatchCompletedRuns)
    else if !(RecordRunIds(records) <= RunIds(runs)) then Err(OrphanedRawResultRecords)
    else if !(RunIds(runs) <= RecordRunIds(records)) then Err(ExecutionCountMismatchRawResults)
    else
      match FirstFault(records, |records|)
      case Some(r) => Err(r)
      case None => Ok(Counts(a.finalization.value.count, |runs|, |records|))
  }

  lemma {:induction false} FaultStays(records: seq<RawRecord>, m: nat, n: nat)
    requires m <= n <= |records| && FirstFault(records, m).Some?
    ensures FirstFault(records, n) == FirstFault(records, m)
    decreases n
  {
    if m < n {
      FaultStays(records, m, n - 1);
    }
  }

  method ScanRecords(records: seq<RawRecord>) returns (fault: Option<Reason>)
    ensures fault == FirstFault(records, |records|)
  {
    var seen: set<RefIdentity> := {};
    for n := 0 to |records|
      invariant FirstFault(records, n) == None
      invariant forall ref :: ref in seen <==> exists j :: 0 <= j < n && records[j].Ref() == ref
    {
      var r := records[n];
      if r.Ref() in seen {
        FaultStays(records, n + 1, |records|);
        return Some(DuplicateRawResultReference);
      }
      seen := seen + {r.Ref()};
      if !Complete(r) {
        FaultStays(records, n + 1, |records|);
        return Some(LineageIncomplete);
      }
    }
    fault := None;
  }

  /** The checks in order, the record loop last. */
  method ValidateEvidenceIntegrity(a: L.Audit, runs: seq<RunRecord>, records: seq<RawRecord>, exec: string, cfg: string)
    returns (r: Result<Counts, Reason>)
    ensures r == Validated(a, runs, records, exec, cfg)
  {
    var e := Eligibility(a);
    if e.Err? {
      return Err(e.error);
    }
    if exec == "" {
      return Err(MissingExecutionId);
    }
    if cfg == "" {
      return Err(MissingConfigVersion);
    }
    if runs == [] || records == [] {
      return Err(MissingRawEvidence);
    }
    if a.finalization.value.count != |runs| {
      return Err(ExecutionCountMismatchCompletedRuns);
    }
    if !(RecordRunIds(records) <= RunIds(runs)) {
      return Err(OrphanedRawResultRecords);
    }
    if !(RunIds(runs) <= RecordRunIds(records)) {
      return Err(ExecutionCountMismatchRawResults);
    }
    var fault := ScanRecords(records);
    if fault.Some? {
      return Err(fault.value);
    }
    r := Ok(Counts(a.finalization.value.count, |runs|, |records|));
  }

  lemma {:induction false} NoFaultIff(records: seq<RawRecord>, n: nat)
    requires n <= |records|
    ensures FirstFault(records, n).None? <==>
            ((forall i, j :: 0 <= i < j < n ==> records[i].Ref() != records[j].Ref())
             && (forall i :: 0 <= i < n ==> Complete(records[i])))
  {
    if n > 0 {
      NoFaultIff(records, n - 1);
    }
  }

  /** The gate accepts exactly when: the audit is eligible and identified; there is evidence;
      the recorded count is the number of completed runs; the records come from exactly those
      runs; no two share a reference; and each is complete. */
  lemma AcceptedIff(a: L.Audit, runs: seq<RunRecord>, records: seq<RawRecord>, exec: string, cfg: string)
    ensures Validated(a, runs, records, exec, cfg).Ok? <==>
            (Eligibility(a).Ok? && exec != "" && cfg != "" && runs != [] && records != []
             && a.finalization.value.count == |runs| && RecordRunIds(records) == RunIds(runs)
             && DistinctRefs(records) && forall i :: 0 <= i < |records| ==> Complete(records[i]))
  {
    NoFaultIff(records, |records|);
  }
}
