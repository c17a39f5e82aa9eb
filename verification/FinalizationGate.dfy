/** The finalization integrity gate: six checks over the run records and evidence keys of an
    audit, all evaluated, with every failure reported. */
module FinalizationGate {
  import opened Wrappers
  import opened RunRecords

  datatype Check =
    | TerminalCountMatchesExpected
    | NoOrphanedStartedRecords
    | EveryTerminalRunHasEvidence
    | EveryEvidenceMapsToOneRun
    | NoOrphanEvidence
    | CounterReconciliation

  /** `subject` is the run id or evidence key a failure is about. */
  datatype CheckFailure = CheckFailure(check: Check, subject: string)

  /** What the gate is given: finalization.execution_count, execution_counters.total_completed,
      the run records and the evidence keys. */
  datatype Input = Input(
    client: string, audit: string, count: int, counter: Option<int>, runs: seq<RunRecord>, keys: seq<string>)

  // ---- the failures, check by check ----

  function CountFailures(i: Input): seq<CheckFailure> {
    if TerminalCount(i.runs) == i.count then [] else [CheckFailure(TerminalCountMatchesExpected, "")]
  }

  function StartedFailures(i: Input): seq<CheckFailure> {
    if WithStatus(i.runs, Started) == [] then [] else [CheckFailure(NoOrphanedStartedRecords, "")]
  }

  function EvidenceFailures(i: Input, n: nat): seq<CheckFailure>
    requires n <= |i.runs|
  {
    if n == 0 then []
    else
      var r := i.runs[n - 1];
      EvidenceFailures(i, n - 1)
      + if r.status.Completed? && EvidenceKey(i.client, i.audit, r.runId) !in i.keys
        then [CheckFailure(EveryTerminalRunHasEvidence, r.runId)] else []
  }

  /** The run ids the keys name. */
  function RunIdsOf(keys: seq<string>): (ids: seq<string>)
    ensures |ids| == |keys|
  {
    seq(|keys|, k requires 0 <= k < |keys| => ExtractRunId(keys[k]))
  }

  /** Whether a run id belongs to exactly one record. */
  predicate Single(runs: seq<RunRecord>, id: string) {
    |Matching(runs, id)| == 1
  }

  function MappingFailures(runs: seq<RunRecord>, keys: seq<string>, ids: seq<string>, n: nat): seq<CheckFailure>
    requires |ids| == |keys| && n <= |keys|
  {
    if n == 0 then []
    else
      MappingFailures(runs, keys, ids, n - 1)
      + if !Single(runs, ids[n - 1]) then [CheckFailure(EveryEvidenceMapsToOneRun, keys[n - 1])] else []
  }

  predicate SomeStarted(runs: seq<RunRecord>) {
    exists r :: r in runs && r.status.Started?
  }

  /** Whether a run id belongs to a record that is still STARTED. */
  predicate Orphaned(runs: seq<RunRecord>, id: string) {
    SomeStarted(Matching(runs, id))
  }

  function OrphanFailures(runs: seq<RunRecord>, keys: seq<string>, ids: seq<string>, n: nat): seq<CheckFailure>
    requires |ids| == |keys| && n <= |keys|
  {
    if n == 0 then []
    else
      OrphanFailures(runs, keys, ids, n - 1)
      + if Orphaned(runs, ids[n - 1]) then [CheckFailure(NoOrphanEvidence, keys[n - 1])] else []
  }

  function CounterFailures(i: Input): seq<CheckFailure> {
    if i.counter.Some? && i.counter.value != TerminalCount(i.runs) then [CheckFailure(CounterReconciliation, "")] else []
  }

  function Failures(i: Input): seq<CheckFailure> {
    var ids := RunIdsOf(i.keys);
    CountFailures(i) + StartedFailures(i) + EvidenceFailures(i, |i.runs|) + MappingFailures(i.runs, i.keys, ids, |ids|)
    + OrphanFailures(i.runs, i.keys, ids, |ids|) + CounterFailures(i)
  }

  /** A count that is not positive is a programming error, raised before any check. */
  function Outcome(i: Input): Result<seq<CheckFailure>, string> {
    if i.count <= 0 then Err("ValueError") else Ok(Failures(i))
  }

  predicate Passes(i: Input) {
    Outcome(i) == Ok([])
  }

  lemma {:induction false} MatchingOf(runs: seq<RunRecord>, n: nat, id: string)
    requires n < |runs|
    ensures Matching(runs[..n + 1], id) == Matching(runs[..n], id) + if runs[n].runId == id then [runs[n]] else []
    ensures WithStatus(runs[..n + 1], Started) == WithStatus(runs[..n], Started) + if runs[n].status.Started? then [runs[n]] else []
  {
    assert runs[..n + 1][..n] == runs[..n];
  }

  type Lookup = map<string, seq<RunRecord>>

  function Found(byId: Lookup, id: string): seq<RunRecord> {
    if id in byId then byId[id] else []
  }

  ghost predicate Indexes(byId: Lookup, runs: seq<RunRecord>) {
    forall id :: Found(byId, id) == Matching(runs, id)
  }

  lemma IndexStep(byId: Lookup, runs: seq<RunRecord>, n: nat)
    requires n < |runs| && Indexes(byId, runs[..n])
    ensures Indexes(byId[runs[n].runId := Found(byId, runs[n].runId) + [runs[n]]], runs[..n + 1])
  {
    var more := byId[runs[n].runId := Found(byId, runs[n].runId) + [runs[n]]];
    forall id ensures Found(more, id) == Matching(runs[..n + 1], id) {
      MatchingOf(runs, n, id);
      assert Found(byId, id) == Matching(runs[..n], id);
    }
  }

  /** Fill the lookup by run id and collect the STARTED runs. */
  method Classify(runs: seq<RunRecord>) returns (byId: Lookup, started: seq<RunRecord>)
    ensures Indexes(byId, runs)
    ensures started == WithStatus(runs, Started)
  {
    byId, started := map[], [];
    for n := 0 to |runs|
      invariant started == WithStatus(runs[..n], Started)
      invariant Indexes(byId, runs[..n])
    {
      var r := runs[n];
      MatchingOf(runs, n, r.runId);
      IndexStep(byId, runs, n);
      if r.status.Started? {
        started := started + [r];
      }
      byId := byId[r.runId := Found(byId, r.runId) + [r]];
    }
    assert runs[..|runs|] == runs;
  }

  method CheckEvidence(i: Input) returns (failures: seq<CheckFailure>)
    ensures failures == EvidenceFailures(i, |i.runs|)
  {
    failures := [];
    for n := 0 to |i.runs|
      invariant failures == EvidenceFailures(i, n)
    {
      var r := i.runs[n];
      if r.status.Completed? && EvidenceKey(i.client, i.audit, r.runId) !in i.keys {
        failures := failures + [CheckFailure(EveryTerminalRunHasEvidence, r.runId)];
      }
    }
  }

  method CheckMapping(runs: seq<RunRecord>, keys: seq<string>, ids: seq<string>, byId: Lookup) returns (failures: seq<CheckFailure>)
    requires |ids| == |keys| && Indexes(byId, runs)
    ensures failures == MappingFailures(runs, keys, ids, |keys|)
  {
    failures := [];
    for n := 0 to |keys|
      invariant failures == MappingFailures(runs, keys, ids, n)
    {
      if |Found(byId, ids[n])| != 1 {
        failures := failures + [CheckFailure(EveryEvidenceMapsToOneRun, keys[n])];
      }
    }
  }

  method CheckOrphans(runs: seq<RunRecord>, keys: seq<string>, ids: seq<string>, byId: Lookup) returns (failures: seq<CheckFailure>)
    requires |ids| == |keys| && Indexes(byId, runs)
    ensures failures == OrphanFailures(runs, keys, ids, |keys|)
  {
    failures := [];
    for n := 0 to |keys|
      invariant failures == OrphanFailures(runs, keys, ids, n)
    {
      assert Found(byId, ids[n]) == Matching(runs, ids[n]);
      if SomeStarted(Found(byId, ids[n])) {
        failures := failures + [CheckFailure(NoOrphanEvidence, keys[n])];
      }
    }
  }

  /** All six checks run, whatever the earlier ones find. */
  method FinalizationIntegrityGate(i: Input) returns (o: Result<seq<CheckFailure>, string>)
    ensures o == Outcome(i)
  {
    if i.count <= 0 {
      return Err("ValueError");
    }
    var byId, started := Classify(i.runs);
    var terminal := |i.runs| - |started|;
    var failures := [];
    if terminal != i.count {
      failures := failures + [CheckFailure(TerminalCountMatchesExpected, "")];
    }
    assert failures == CountFailures(i);
    if |started| != 0 {
      failures := failures + [CheckFailure(NoOrphanedStartedRecords, "")];
    }
    assert failures == CountFailures(i) + StartedFailures(i);
    var evidence := CheckEvidence(i);
    var ids := RunIdsOf(i.keys);
    var mapping := CheckMapping(i.runs, i.keys, ids, byId);
    var orphans := CheckOrphans(i.runs, i.keys, ids, byId);
    failures := failures + evidence + mapping + orphans;
    ghost var five := failures;
    if i.counter.Some? && i.counter.value != terminal {
      failures := failures + [CheckFailure(CounterReconciliation, "")];
    }
    assert failures == five + CounterFailures(i);
    o := Ok(failures);
  }

  // ---- what passing means ----

  lemma {:induction false} EvidenceCheck(i: Input, n: nat)
    requires n <= |i.runs|
    ensures EvidenceFailures(i, n) == [] <==>
            forall k :: 0 <= k < n && i.runs[k].status.Completed? ==> EvidenceKey(i.client, i.audit, i.runs[k].runId) in i.keys
  {
    if n > 0 { EvidenceCheck(i, n - 1); }
  }

  lemma {:induction false} MappingCheck(runs: seq<RunRecord>, keys: seq<string>, ids: seq<string>, n: nat)
    requires |ids| == |keys| && n <= |keys|
    ensures MappingFailures(runs, keys, ids, n) == [] <==> forall k :: 0 <= k < n ==> Single(runs, ids[k])
  {
    if n > 0 { MappingCheck(runs, keys, ids, n - 1); }
  }

  lemma {:induction false} NoOrphans(runs: seq<RunRecord>, keys: seq<string>, ids: seq<string>, n: nat)
    requires |ids| == |keys| && n <= |keys| && NoneStarted(runs)
    ensures OrphanFailures(runs, keys, ids, n) == []
  {
    if n > 0 {
      NoOrphans(runs, keys, ids, n - 1);
      NotOrphaned(runs, ids[n - 1]);
    }
  }

  ghost predicate NoneStarted(runs: seq<RunRecord>) {
    forall r :: r in runs ==> !r.status.Started?
  }

  /** The gate passes exactly when: the count is positive and is the number of runs, none of
      them STARTED; every COMPLETED run has its evidence key; every key belongs to exactly one
      run; and the counter, when present, is that number too. The fifth check adds nothing. */
  lemma PassesIff(i: Input)
    ensures Passes(i) <==>
            (i.count > 0 && i.count == |i.runs| && NoneStarted(i.runs)
             && (forall k :: 0 <= k < |i.runs| && i.runs[k].status.Completed? ==>
                   EvidenceKey(i.client, i.audit, i.runs[k].runId) in i.keys)
             && (forall k :: 0 <= k < |i.keys| ==> Single(i.runs, RunIdsOf(i.keys)[k]))
             && (i.counter.Some? ==> i.counter.value == |i.runs|))
  {
    EvidenceCheck(i, |i.runs|);
    PassesForIds(i, RunIdsOf(i.keys));
  }

  lemma PassesForIds(i: Input, ids: seq<string>)
    requires |ids| == |i.keys|
    ensures CountFailures(i) + StartedFailures(i) + EvidenceFailures(i, |i.runs|) + MappingFailures(i.runs, i.keys, ids, |ids|)
            + OrphanFailures(i.runs, i.keys, ids, |ids|) + CounterFailures(i) == [] <==>
            (i.count == |i.runs| && NoneStarted(i.runs) && EvidenceFailures(i, |i.runs|) == []
             && (forall k :: 0 <= k < |i.keys| ==> Single(i.runs, ids[k]))
             && (i.counter.Some? ==> i.counter.value == |i.runs|))
  {
    MappingCheck(i.runs, i.keys, ids, |ids|);
    NoneStartedIff(i.runs);
    if NoneStarted(i.runs) {
      assert TerminalCount(i.runs) == |i.runs|;
      NoOrphans(i.runs, i.keys, ids, |ids|);
    }
    EmptySum(CountFailures(i), StartedFailures(i), EvidenceFailures(i, |i.runs|), MappingFailures(i.runs, i.keys, ids, |ids|),
             OrphanFailures(i.runs, i.keys, ids, |ids|), CounterFailures(i));
  }

  lemma EmptySum<T>(a: seq<T>, b: seq<T>, c: seq<T>, d: seq<T>, e: seq<T>, f: seq<T>)
    ensures a + b + c + d + e + f == [] <==> a == [] && b == [] && c == [] && d == [] && e == [] && f == []
  {
    assert |a + b + c + d + e + f| == |a| + |b| + |c| + |d| + |e| + |f|;
  }

  lemma NotOrphaned(runs: seq<RunRecord>, id: string)
    requires NoneStarted(runs)
    ensures !Orphaned(runs, id)
  {
    forall r | r in Matching(runs, id) ensures !r.status.Started? { assert r in runs; }
  }

  lemma NoneStartedIff(runs: seq<RunRecord>)
    ensures WithStatus(runs, Started) == [] <==> NoneStarted(runs)
  {
    var s := WithStatus(runs, Started);
    if s != [] {
      assert s[0] in s && s[0] in runs;
    } else {
      forall r | r in runs ensures !r.status.Started? { assert r in s <==> r in runs && r.status == Started; }
    }
  }

  /** With slash-free ids a passing gate means: no run is STARTED, the run id of a COMPLETED
      run belongs to no other record, and different COMPLETED runs have different evidence
      keys, all listed. */
  lemma PassedRuns(i: Input, j: nat, k: nat)
    requires Passes(i) && j < |i.runs| && k < |i.runs| && j != k
    requires SlashFree(i.client) && SlashFree(i.audit) && forall r :: r in i.runs ==> SlashFree(r.runId)
    requires i.runs[j].status.Completed?
    ensures !i.runs[k].status.Started?
    ensures i.runs[j].runId != i.runs[k].runId
    ensures EvidenceKey(i.client, i.audit, i.runs[j].runId) in i.keys
    ensures EvidenceKey(i.client, i.audit, i.runs[j].runId) != EvidenceKey(i.client, i.audit, i.runs[k].runId)
  {
    PassesIff(i);
    var id := i.runs[j].runId;
    assert i.runs[j] in i.runs && i.runs[k] in i.runs;
    ListedOnce(i, id);
    if i.runs[k].runId == id {
      MatchingUnique(i.runs, id, if j < k then j else k, if j < k then k else j);
    }
    EvidenceKeyInjective(i.client, i.audit, id, i.client, i.audit, i.runs[k].runId);
  }

  /** A run whose evidence key is listed has the only record of its id. */
  lemma ListedOnce(i: Input, id: string)
    requires Passes(i) && SlashFree(i.client) && SlashFree(i.audit) && SlashFree(id)
    requires EvidenceKey(i.client, i.audit, id) in i.keys
    ensures Single(i.runs, id)
  {
    PassesIff(i);
    var n :| 0 <= n < |i.keys| && i.keys[n] == EvidenceKey(i.client, i.audit, id);
    ExtractRoundTrip(i.client, i.audit, id);
    assert RunIdsOf(i.keys)[n] == id;
  }

  /** Every listed evidence key belongs to a run that has ended. */
  lemma PassedKeys(i: Input, k: nat)
    requires Passes(i) && k < |i.keys|
    ensures exists r :: Matching(i.runs, RunIdsOf(i.keys)[k]) == [r] && r in i.runs && !r.status.Started?
  {
    PassesIff(i);
    SingleEnded(i.runs, RunIdsOf(i.keys)[k]);
  }

  lemma SingleEnded(runs: seq<RunRecord>, id: string)
    requires Single(runs, id) && NoneStarted(runs)
    ensures exists r :: Matching(runs, id) == [r] && r in runs && !r.status.Started?
  {
    var m := Matching(runs, id);
    assert m[0] in m && m == [m[0]];
  }
}
