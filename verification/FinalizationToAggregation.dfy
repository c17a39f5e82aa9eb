/** What finalization accepts, aggregation accepts: over one store of run records and
    evidence objects, the gate's verdict decides the evidence gate's. */
module FinalizationToAggregation {
  import opened Wrappers
  import opened RunRecords
  import opened RunProtocol
  import opened EvidenceKeys
  import opened EvidenceIntegrity
  import opened AggregationRecords
  import Ordering
  import L = Lifecycle
  import P = FinalizationProtocol
  import S = FinalizationSafety
  import Gate = FinalizationGate
  import Text

  /** The record a listing shows for a stored run. */
  function Shown(run: string, rec: Rec): RunRecord {
    RunRecord(run, rec.status, Some(RAW_RESULT_VERSION), rec.rawKey)
  }

  predicate Stored(st: State, client: string, audit: string, run: string) {
    RunRef(client, audit, run) in st.records
  }

  /** A complete listing of an audit's runs: every stored record, once. */
  ghost predicate Lists(runs: seq<RunRecord>, st: State, client: string, audit: string) {
    && (forall i :: 0 <= i < |runs| ==>
          Stored(st, client, audit, runs[i].runId)
          && runs[i] == Shown(runs[i].runId, st.records[RunRef(client, audit, runs[i].runId)]))
    && IdsDistinct(runs)
    && (forall run :: Stored(st, client, audit, run) ==>
          Shown(run, st.records[RunRef(client, audit, run)]) in runs)
  }

  /** Endpoint ids are normalised before they are stored in a record, and never empty. */
  ghost predicate Named(st: State) {
    forall k :: k in st.evidence ==>
      forall i :: 0 <= i < |st.evidence[k].results| ==> st.evidence[k].results[i].endpointId != ""
  }

  /** The key test accepts the evidence key of every completed run. */
  ghost predicate KeysSafe(runs: seq<RunRecord>, client: string, audit: string) {
    forall r :: r in runs && r.status.Completed? ==> r.runId != "" && SafeKey(EvidenceKey(client, audit, r.runId), client, audit)
  }

  // ---- every completed run loads ----

  lemma CompletedIsUsable(st: State, runs: seq<RunRecord>, client: string, audit: string, r: RunRecord)
    requires Inv(st) && Lists(runs, st, client, audit) && r in runs && r.status.Completed?
    ensures Usable(r) && r.rawKey == Some(EvidenceKey(client, audit, r.runId))
    ensures EvidenceKey(client, audit, r.runId) in st.evidence
    ensures var e := st.evidence[EvidenceKey(client, audit, r.runId)];
            EnvelopeMatches(e, client, audit, r.runId) && e.results != []
  {
    var i :| 0 <= i < |runs| && runs[i] == r;
    var ref := RunRef(client, audit, r.runId);
    assert Stored(st, client, audit, r.runId);
    CompletedHasEvidenceIn(st, ref);
    assert |Text.Join(EvidenceFields(client, audit, r.runId), '/')| > 0;
  }

  predicate HasRun(runs: seq<RunRecord>, id: string) {
    exists r :: r in runs && r.runId == id
  }

  predicate HasRecord(records: seq<RawRecord>, id: string) {
    exists x :: x in records && x.runId == id
  }

  predicate FromRun(x: RawRecord, runs: seq<RunRecord>, client: string, audit: string) {
    Complete(x) && x.key == EvidenceKey(client, audit, x.runId) && x.s3Version.None? && HasRun(runs, x.runId)
  }

  ghost predicate AllFromRuns(records: seq<RawRecord>, runs: seq<RunRecord>, client: string, audit: string) {
    forall x :: x in records ==> FromRun(x, runs, client, audit)
  }

  ghost predicate EveryRunHasRecord(records: seq<RawRecord>, runs: seq<RunRecord>) {
    forall r :: r in runs ==> HasRecord(records, r.runId)
  }

  /** What loading a list of runs yields, run by run. */
  ghost predicate Loaded(records: seq<RawRecord>, runs: seq<RunRecord>, client: string, audit: string) {
    AllFromRuns(records, runs, client, audit) && EveryRunHasRecord(records, runs) && DistinctRefs(records)
  }

  ghost predicate IdsDistinct(runs: seq<RunRecord>) {
    forall i, j :: 0 <= i < j < |runs| ==> runs[i].runId != runs[j].runId
  }

  lemma OneLoads(st: State, r: RunRecord, client: string, audit: string)
    requires Named(st) && RunLoadable(st, r, client, audit)
    ensures LoadOne(st.evidence, r, client, audit).Ok?
    ensures Loaded(LoadOne(st.evidence, r, client, audit).value, [r], client, audit)
    ensures forall x :: x in LoadOne(st.evidence, r, client, audit).value ==> x.runId == r.runId
  {
    var key := r.rawKey.value;
    var results := st.evidence[key].results;
    var records := ToRecords(r.runId, key, results);
    assert r in [r];
    assert records[0] in records;
    assert |Text.Join(EvidenceFields(client, audit, r.runId), '/')| > 0;
    assert LoadOne(st.evidence, r, client, audit) == Ok(records);
    forall x | x in records
      ensures FromRun(x, [r], client, audit) && x.runId == r.runId
    {
      var i :| 0 <= i < |records| && records[i] == x;
      assert results[i].endpointId != "";
    }
    forall i, j | 0 <= i < j < |records| ensures records[i].Ref() != records[j].Ref() {
      assert records[i].index == i && records[j].index == j;
    }
  }

  lemma HasRunMore(runs: seq<RunRecord>, more: seq<RunRecord>, id: string)
    requires HasRun(runs, id) || HasRun(more, id)
    ensures HasRun(runs + more, id)
  {
    if HasRun(runs, id) {
      var r :| r in runs && r.runId == id;
      assert r in runs + more;
    } else {
      var r :| r in more && r.runId == id;
      assert r in runs + more;
    }
  }

  lemma HasRecordMore(a: seq<RawRecord>, b: seq<RawRecord>, id: string)
    requires HasRecord(a, id) || HasRecord(b, id)
    ensures HasRecord(a + b, id)
  {
    if HasRecord(a, id) {
      var x :| x in a && x.runId == id;
      assert x in a + b;
    } else {
      var x :| x in b && x.runId == id;
      assert x in a + b;
    }
  }

  lemma LoadedJoin(a: seq<RawRecord>, more: seq<RawRecord>, runs: seq<RunRecord>, r: RunRecord, client: string, audit: string)
    requires Loaded(a, runs, client, audit) && Loaded(more, [r], client, audit)
    requires forall x :: x in more ==> x.runId == r.runId
    requires forall q :: q in runs ==> q.runId != r.runId
    ensures Loaded(a + more, runs + [r], client, audit)
  {
    forall q | q in runs + [r] ensures HasRecord(a + more, q.runId) {
      assert q in runs || q in [r];
      HasRecordMore(a, more, q.runId);
    }
    forall x | x in a + more ensures FromRun(x, runs + [r], client, audit) {
      assert x in a || x in more;
      HasRunMore(runs, [r], x.runId);
    }
    forall x, y | x in a && y in more ensures x.runId != y.runId {
      assert FromRun(x, runs, client, audit);
      var q :| q in runs && q.runId == x.runId;
    }
    JoinDistinct(a, more);
  }

  lemma JoinDistinct(a: seq<RawRecord>, b: seq<RawRecord>)
    requires DistinctRefs(a) && DistinctRefs(b)
    requires forall x, y :: x in a && y in b ==> x.runId != y.runId
    ensures DistinctRefs(a + b)
  {
    forall i, j | 0 <= i < j < |a + b| ensures (a + b)[i].Ref() != (a + b)[j].Ref() {
      if i < |a| {
        assert (a + b)[i] in a;
        if j >= |a| {
          assert (a + b)[j] in b;
        }
      }
    }
  }

  predicate RunLoadable(st: State, r: RunRecord, client: string, audit: string) {
    && r.runId != "" && SafeKey(EvidenceKey(client, audit, r.runId), client, audit)
    && r.rawKey == Some(EvidenceKey(client, audit, r.runId)) && r.rawKey.value in st.evidence
    && EnvelopeMatches(st.evidence[r.rawKey.value], client, audit, r.runId)
    && st.evidence[r.rawKey.value].results != []
  }

  ghost predicate Loadable(st: State, runs: seq<RunRecord>, client: string, audit: string) {
    && Named(st)
    && IdsDistinct(runs)
    && forall r :: r in runs ==> RunLoadable(st, r, client, audit)
  }

  lemma {:induction false} AllLoad(st: State, runs: seq<RunRecord>, client: string, audit: string)
    requires Loadable(st, runs, client, audit)
    ensures LoadAll(st.evidence, runs, client, audit).Ok?
    ensures Loaded(LoadAll(st.evidence, runs, client, audit).value, runs, client, audit)
    decreases |runs|
  {
    if runs != [] {
      var init, r := runs[..|runs| - 1], runs[|runs| - 1];
      InitLoadable(st, runs, client, audit);
      AllLoad(st, init, client, audit);
      OneLoads(st, r, client, audit);
      LoadedJoin(LoadAll(st.evidence, init, client, audit).value, LoadOne(st.evidence, r, client, audit).value, init, r, client, audit);
    }
  }

  lemma InitLoadable(st: State, runs: seq<RunRecord>, client: string, audit: string)
    requires runs != [] && Loadable(st, runs, client, audit)
    ensures var init, r := runs[..|runs| - 1], runs[|runs| - 1];
            && Loadable(st, init, client, audit) && RunLoadable(st, r, client, audit) && runs == init + [r]
            && forall q :: q in init ==> q.runId != r.runId
  {
    var init, r := runs[..|runs| - 1], runs[|runs| - 1];
    assert r in runs && runs == init + [r];
    forall q | q in init ensures q in runs && q.runId != r.runId {
      var i :| 0 <= i < |init| && init[i] == q;
      assert runs[i] == q;
    }
  }

  // ---- the completed runs of a listing ----

  lemma {:induction false} UsableAreCompleted(items: seq<RunRecord>)
    requires forall r :: r in items && r.status.Completed? ==> Usable(r)
    ensures UsableRuns(items) == WithStatus(items, Completed)
  {
    if items != [] {
      var last := items[|items| - 1];
      assert last in items;
      assert forall r :: r in items[..|items| - 1] ==> r in items;
      UsableAreCompleted(items[..|items| - 1]);
    }
  }

  lemma CompletedDistinct(runs: seq<RunRecord>, i: nat, j: nat)
    requires IdsDistinct(runs)
    requires i < j < |CompletedRuns(runs)|
    ensures CompletedRuns(runs)[i].runId != CompletedRuns(runs)[j].runId
  {
    var u, c := UsableRuns(runs), CompletedRuns(runs);
    Ordering.SortElements(u, RunLe());
    UsableDistinct(runs);
    SameIdTwice(u, c, i, j);
  }

  lemma {:induction false} UsableDistinct(runs: seq<RunRecord>)
    requires IdsDistinct(runs)
    ensures IdsDistinct(UsableRuns(runs))
  {
    if runs != [] {
      var n := |runs| - 1;
      UsableDistinct(runs[..n]);
      forall r | r in UsableRuns(runs[..n]) ensures r.runId != runs[n].runId {
        var i :| 0 <= i < n && runs[i] == r;
      }
    }
  }

  lemma {:induction false} IdCount(s: seq<RunRecord>, r: RunRecord)
    requires IdsDistinct(s)
    ensures multiset(s)[r] <= 1
  {
    if s != [] {
      IdCount(s[1..], r);
      assert s == [s[0]] + s[1..];
      assert s[0] !in s[1..];
    }
  }

  lemma SameIdTwice(u: seq<RunRecord>, c: seq<RunRecord>, i: nat, j: nat)
    requires multiset(u) == multiset(c) && i < j < |c|
    requires IdsDistinct(u)
    ensures c[i].runId != c[j].runId
  {
    assert c[i] in multiset(c) && c[j] in multiset(c);
    var a :| 0 <= a < |u| && u[a] == c[i];
    var b :| 0 <= b < |u| && u[b] == c[j];
    IdCount(u, c[i]);
    TwiceCounted(c, i, j);
  }

  lemma TwiceCounted(c: seq<RunRecord>, i: nat, j: nat)
    requires i < j < |c|
    ensures c[i] == c[j] ==> multiset(c)[c[i]] >= 2
  {
    assert c == c[..i] + [c[i]] + c[i + 1..j] + [c[j]] + c[j + 1..];
    assert multiset(c) ==
           multiset(c[..i]) + multiset{c[i]} + multiset(c[i + 1..j]) + multiset{c[j]} + multiset(c[j + 1..]);
  }

  lemma ListingLoadable(st: State, runs: seq<RunRecord>, client: string, audit: string)
    requires Inv(st) && Named(st) && Lists(runs, st, client, audit) && KeysSafe(runs, client, audit)
    ensures Loadable(st, CompletedRuns(runs), client, audit)
    ensures |CompletedRuns(runs)| == |WithStatus(runs, Completed)|
  {
    CompletedMembers(runs);
    forall r | r in runs && r.status.Completed?
      ensures Usable(r) && RunLoadable(st, r, client, audit)
    {
      CompletedIsUsable(st, runs, client, audit, r);
    }
    UsableAreCompleted(runs);
    var c := CompletedRuns(runs);
    forall i, j | 0 <= i < j < |c| ensures c[i].runId != c[j].runId { CompletedDistinct(runs, i, j); }
  }

  // ---- the gates together ----

  lemma LoadedIds(records: seq<RawRecord>, runs: seq<RunRecord>, client: string, audit: string)
    requires Loaded(records, runs, client, audit)
    ensures RecordRunIds(records) == RunIds(runs)
    ensures runs != [] ==> records != []
    ensures forall i :: 0 <= i < |records| ==> Complete(records[i])
  {
    forall id | id in RecordRunIds(records) ensures id in RunIds(runs) {
      var x :| x in records && x.runId == id;
      assert FromRun(x, runs, client, audit);
    }
    forall id | id in RunIds(runs) ensures id in RecordRunIds(records) {
      var r :| r in runs && r.runId == id;
      assert HasRecord(records, r.runId);
    }
    if runs != [] {
      assert HasRecord(records, runs[0].runId);
    }
    forall i | 0 <= i < |records| ensures Complete(records[i]) {
      assert FromRun(records[i], runs, client, audit);
    }
  }

  /** Over a reachable store the evidence of an audit always loads, and the evidence gate
      accepts it exactly when the audit is eligible and its recorded count is the number of
      COMPLETED runs. */
  lemma StoreAggregates(st: State, runs: seq<RunRecord>, client: string, audit: string, a: L.Audit, exec: string, cfg: string)
    requires Inv(st) && Named(st) && Lists(runs, st, client, audit) && KeysSafe(runs, client, audit)
    requires exec != "" && cfg != ""
    ensures LoadAll(st.evidence, CompletedRuns(runs), client, audit).Ok?
    ensures var records := LoadAll(st.evidence, CompletedRuns(runs), client, audit).value;
            Validated(a, CompletedRuns(runs), records, exec, cfg).Ok? <==>
            Eligibility(a).Ok? && a.finalization.value.count == |WithStatus(runs, Completed)|
  {
    var c := CompletedRuns(runs);
    ListingLoadable(st, runs, client, audit);
    AllLoad(st, c, client, audit);
    var records := LoadAll(st.evidence, c, client, audit).value;
    LoadedIds(records, c, client, audit);
    AcceptedIff(a, c, records, exec, cfg);
  }

  /** An audit completed by the handler and never forced is eligible. */
  lemma CompletedIsEligible(start: P.State, acts: seq<P.Action>)
    requires P.Initial(start)
    requires var end := P.Exec(start, acts);
             end.audit.Some? && end.audit.value.state.Completed? && !L.Forced(end.audit.value.history)
    ensures var end := P.Exec(start, acts);
            && end.completion.Some?
            && Eligibility(end.audit.value) == Ok(())
            && end.audit.value.finalization.value.count == end.completion.value.count
  {
    S.CompletedMeansRecorded(start, acts);
    HandlerSucceeds(P.Exec(start, acts).audit.value.history);
  }

  /** An entry of the finalization handler counts as a successful completion. */
  lemma HandlerSucceeds(history: seq<L.Entry>)
    requires S.HandlerCompleted(history)
    ensures HasSuccessfulTransition(history)
  {
    var i :| 0 <= i < |history| && history[i].to.Completed? && history[i].actor == P.HANDLER;
    assert SuccessfulTransition(history[i]);
  }

  /** Finalization composes with aggregation. Let some interleaving of finalizers and other
      callers complete an audit, and let the completing gate have seen the runs of a store
      that some interleaving of runs can reach. Then over that store the evidence loads, and
      the evidence gate accepts it exactly when, on the direct path, the gate saw no FAILED
      run, and on the retry path, the recorded count is the number of COMPLETED runs. */
  lemma FinalizedAggregates(start: P.State, acts: seq<P.Action>, runStart: State, steps: seq<(nat, Answer)>, exec: string, cfg: string)
    requires P.Initial(start) && Initial(runStart) && exec != "" && cfg != ""
    requires var end := P.Exec(start, acts);
             && end.audit.Some? && end.audit.value.state.Completed? && !L.Forced(end.audit.value.history)
             && end.completion.Some?
             && var runs := end.completion.value.input.runs;
             && Lists(runs, Exec(runStart, steps), start.client, start.auditId)
             && KeysSafe(runs, start.client, start.auditId)
             && Named(Exec(runStart, steps))
    ensures var end := P.Exec(start, acts);
            var runs := end.completion.value.input.runs;
            var store := Exec(runStart, steps);
            var loaded := LoadAll(store.evidence, CompletedRuns(runs), start.client, start.auditId);
            && loaded.Ok?
            && (Validated(end.audit.value, CompletedRuns(runs), loaded.value, exec, cfg).Ok? <==>
                if end.completion.value.retry then end.completion.value.count == |WithStatus(runs, Completed)|
                else WithStatus(runs, Failed) == [])
  {
    var end := P.Exec(start, acts);
    var input := end.completion.value.input;
    var store := Exec(runStart, steps);
    Reachable(runStart, steps);
    CompletedIsEligible(start, acts);
    StoreAggregates(store, input.runs, start.client, start.auditId, end.audit.value, exec, cfg);
    DirectCount(start, acts);
  }

  /** On the direct path the recorded count is the number of all runs the gate saw, none of
      them STARTED. */
  lemma DirectCount(start: P.State, acts: seq<P.Action>)
    requires P.Initial(start)
    requires var end := P.Exec(start, acts);
             end.audit.Some? && end.audit.value.state.Completed? && end.completion.Some?
    ensures var c := P.Exec(start, acts).completion.value;
            !c.retry ==> (c.count == |WithStatus(c.input.runs, Completed)| <==> WithStatus(c.input.runs, Failed) == [])
  {
    S.CompletedMeansRecorded(start, acts);
    var c := P.Exec(start, acts).completion.value;
    Gate.PassesIff(c.input);
    Gate.NoneStartedIff(c.input.runs);
    StatusCounts(c.input.runs);
  }
}
