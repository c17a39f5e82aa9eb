/** Runs that go on after the finalization gate has looked: when aggregation still accepts the
    evidence it then finds. */
module LaterRuns {
  import opened Wrappers
  import opened RunRecords
  import opened RunProtocol
  import opened EvidenceIntegrity
  import opened FinalizationToAggregation
  import L = Lifecycle
  import P = FinalizationProtocol
  import S = FinalizationSafety
  import Gate = FinalizationGate

  /** The runs of an audit whose record is COMPLETED. */
  function CompletedIds(st: State, client: string, audit: string): set<string> {
    set ref | ref in st.records && ref.client == client && ref.audit == audit && st.records[ref].status.Completed? :: ref.run
  }

  function IdSet(runs: seq<RunRecord>): set<string> {
    set r | r in runs :: r.runId
  }

  lemma {:induction false} DistinctCount(runs: seq<RunRecord>)
    requires IdsDistinct(runs)
    ensures |IdSet(runs)| == |runs|
    decreases |runs|
  {
    if runs != [] {
      var init, last := runs[..|runs| - 1], runs[|runs| - 1];
      DistinctCount(init);
      assert runs == init + [last];
      assert last.runId !in IdSet(init);
      assert IdSet(runs) == IdSet(init) + {last.runId};
    }
  }

  lemma {:induction false} WithStatusDistinct(runs: seq<RunRecord>, status: RunStatus)
    requires IdsDistinct(runs)
    ensures IdsDistinct(WithStatus(runs, status))
    decreases |runs|
  {
    if runs != [] {
      var n := |runs| - 1;
      WithStatusDistinct(runs[..n], status);
      forall r | r in WithStatus(runs[..n], status) ensures r.runId != runs[n].runId {
        var i :| 0 <= i < n && runs[i] == r;
      }
    }
  }

  /** A complete listing has as many COMPLETED entries as the store has COMPLETED runs. */
  lemma ListedCompleted(runs: seq<RunRecord>, st: State, client: string, audit: string)
    requires Lists(runs, st, client, audit)
    ensures |WithStatus(runs, Completed)| == |CompletedIds(st, client, audit)|
  {
    var c := WithStatus(runs, Completed);
    WithStatusDistinct(runs, Completed);
    DistinctCount(c);
    forall id ensures id in IdSet(c) <==> id in CompletedIds(st, client, audit) {
      if id in IdSet(c) {
        var r :| r in c && r.runId == id;
        ListedRun(runs, st, client, audit, r);
      }
      if id in CompletedIds(st, client, audit) {
        assert Stored(st, client, audit, id);
        var r := Shown(id, st.records[RunRef(client, audit, id)]);
        assert r in runs && r in c;
      }
    }
    assert IdSet(c) == CompletedIds(st, client, audit);
  }

  lemma ListedRun(runs: seq<RunRecord>, st: State, client: string, audit: string, r: RunRecord)
    requires Lists(runs, st, client, audit) && r in runs && r.status.Completed?
    ensures r.runId in CompletedIds(st, client, audit)
  {
    var i :| 0 <= i < |runs| && runs[i] == r;
    assert Stored(st, client, audit, r.runId);
    assert RunRef(client, audit, r.runId) in st.records;
  }

  lemma Difference<T>(before: set<T>, after: set<T>)
    ensures |after| + |before - after| == |before| + |after - before|
  {
    var both := before * after;
    assert before == both + (before - after) && after == both + (after - before);
    assert both !! (before - after) && both !! (after - before);
  }

  /** On the direct path the recorded count is the number of runs the gate saw. */
  lemma DirectIsAll(start: P.State, acts: seq<P.Action>)
    requires P.Initial(start)
    requires var end := P.Exec(start, acts);
             end.audit.Some? && end.audit.value.state.Completed? && end.completion.Some?
    ensures var c := P.Exec(start, acts).completion.value;
            !c.retry ==> c.count == |WithStatus(c.input.runs, Completed)| + |WithStatus(c.input.runs, Failed)|
  {
    S.CompletedMeansRecorded(start, acts);
    var c := P.Exec(start, acts).completion.value;
    Gate.PassesIff(c.input);
    Gate.NoneStartedIff(c.input.runs);
    StatusCounts(c.input.runs);
  }

  /** Let a gate complete an audit over a reachable store, let the runs go on for any number of
      steps, and let aggregation list what is there then. The evidence still loads; and it is
      accepted exactly when, on the direct path, the runs that have completed since are as
      many as those that left COMPLETED since and those the gate saw FAILED, and on the retry
      path, the recorded count is the number of runs COMPLETED by then. */
  lemma LaterAggregates(
    start: P.State, acts: seq<P.Action>, runStart: State, steps: seq<(nat, Answer)>, more: seq<(nat, Answer)>,
    later: seq<RunRecord>, exec: string, cfg: string)
    requires P.Initial(start) && Initial(runStart) && exec != "" && cfg != ""
    requires var end := P.Exec(start, acts);
             && end.audit.Some? && end.audit.value.state.Completed? && !L.Forced(end.audit.value.history)
             && end.completion.Some?
             && Lists(end.completion.value.input.runs, Exec(runStart, steps), start.client, start.auditId)
    requires Lists(later, Exec(runStart, steps + more), start.client, start.auditId)
    requires KeysSafe(later, start.client, start.auditId) && Named(Exec(runStart, steps + more))
    ensures LoadAll(Exec(runStart, steps + more).evidence, CompletedRuns(later), start.client, start.auditId).Ok?
    ensures var c := P.Exec(start, acts).completion.value;
            var before := CompletedIds(Exec(runStart, steps), start.client, start.auditId);
            var after := CompletedIds(Exec(runStart, steps + more), start.client, start.auditId);
            var records := LoadAll(Exec(runStart, steps + more).evidence, CompletedRuns(later), start.client, start.auditId).value;
            Validated(P.Exec(start, acts).audit.value, CompletedRuns(later), records, exec, cfg).Ok? <==>
            if c.retry then c.count == |after|
            else |after - before| == |before - after| + |WithStatus(c.input.runs, Failed)|
  {
    var end, store := P.Exec(start, acts), Exec(runStart, steps + more);
    var c := end.completion.value;
    Reachable(runStart, steps + more);
    CompletedIsEligible(start, acts);
    StoreAggregates(store, later, start.client, start.auditId, end.audit.value, exec, cfg);
    ListedCompleted(later, store, start.client, start.auditId);
    ListedCompleted(c.input.runs, Exec(runStart, steps), start.client, start.auditId);
    DirectIsAll(start, acts);
    Difference(CompletedIds(Exec(runStart, steps), start.client, start.auditId), CompletedIds(store, start.client, start.auditId));
  }
}
