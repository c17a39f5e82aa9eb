/** A finalization that goes through with a FAILED run, and whose evidence aggregation then
    refuses: both machines run to such an end. */
module FailedRunGate {
  import opened Wrappers
  import opened RunRecords
  import opened RunProtocol
  import opened EvidenceKeys
  import opened Substrings
  import opened EvidenceIntegrity
  import opened FinalizationToAggregation
  import Gate = FinalizationGate
  import L = Lifecycle
  import P = FinalizationProtocol
  import Limits = FinalizationLimits
  import Text

  // ---- a store with a completed and a failed run, both with evidence ----

  /** An invocation by itself, up to the point where it stores its evidence. */
  lemma Executes(start: State, st: State, p: nat, ref: RunRef, results: seq<EndpointResult>) returns (u: State)
    requires ReachedFrom(start, st) && results != []
    requires p in st.procs && st.procs[p] == Proc(ref, HeadEvidence) && ref !in st.records && KeyOf(ref) !in st.evidence
    ensures ReachedFrom(start, u) && u.records == st.records[ref := Rec(Started, None)] && u.evidence == st.evidence
    ensures u.procs == st.procs[p := Proc(ref, PutEvidence(results))]
  {
    u := ReachedStep(start, st, p, Ack(false));
    u := ReachedStep(start, u, p, Seen(false));
    u := Creates(start, u, st, p, ref);
    u := ReachedStep(start, u, p, Ran(results));
    u := ReachedStep(start, u, p, Ack(false));
    assert u.procs == st.procs[p := Proc(ref, PutEvidence(results))];
  }

  lemma Creates(start: State, st: State, before: State, p: nat, ref: RunRef) returns (u: State)
    requires ReachedFrom(start, st) && p in before.procs && ref !in before.records
    requires st == before.(procs := before.procs[p := Proc(ref, PutStarted)])
    ensures ReachedFrom(start, u) && u.records == before.records[ref := Rec(Started, None)]
    ensures u.evidence == before.evidence && u.procs == before.procs[p := Proc(ref, Execute)]
  {
    u := ReachedStep(start, st, p, Ack(false));
  }

  /** `lost` evidence is stored all the same, but the run ends FAILED. */
  function Ending(ref: RunRef, lost: bool): Rec {
    if lost then Rec(RunStatus.Failed, None) else Rec(RunStatus.Completed, Some(KeyOf(ref)))
  }

  lemma Ends(start: State, st: State, p: nat, ref: RunRef, results: seq<EndpointResult>, lost: bool) returns (u: State)
    requires ReachedFrom(start, st)
    requires p in st.procs && st.procs[p] == Proc(ref, PutEvidence(results))
    requires ref in st.records && st.records[ref] == Rec(Started, None)
    ensures ReachedFrom(start, u) && u.records == st.records[ref := Ending(ref, lost)]
    ensures u.evidence == st.evidence[KeyOf(ref) := EvidenceOf(ref, results)]
    ensures u.procs == st.procs[p := Proc(ref, Done)]
  {
    u := ReachedStep(start, st, p, Ack(lost));
    assert u.procs[p].pc == if lost then MarkFailed else MarkCompleted;
    u := ReachedStep(start, u, p, Ack(false));
    assert u.procs == st.procs[p := Proc(ref, Done)];
  }

  function TwoRuns(r: RunRef, s: RunRef): State {
    State(map[], map[], map[0 := Proc(r, HeadEvidence), 1 := Proc(s, HeadEvidence)], map[], [])
  }

  lemma BothStored(r: RunRef, s: RunRef, results: seq<EndpointResult>) returns (u: State)
    requires r != s && KeyOf(r) != KeyOf(s) && results != []
    ensures ReachedFrom(TwoRuns(r, s), u)
    ensures u.records == map[r := Ending(r, false), s := Ending(s, true)]
    ensures u.evidence == map[KeyOf(r) := EvidenceOf(r, results), KeyOf(s) := EvidenceOf(s, results)]
  {
    var start := TwoRuns(r, s);
    assert Exec(start, []) == start;
    u := Executes(start, start, 0, r, results);
    u := Ends(start, u, 0, r, results, false);
    u := Executes(start, u, 1, s, results);
    u := Ends(start, u, 1, s, results, true);
  }

  // ---- the gate passes on it ----

  function Listing(r: RunRef, s: RunRef): seq<RunRecord> {
    [Shown(r.run, Ending(r, false)), Shown(s.run, Ending(s, true))]
  }

  function InputOf(r: RunRef, s: RunRef): Gate.Input {
    Gate.Input(r.client, r.audit, 2, Some(2), Listing(r, s), [KeyOf(r), KeyOf(s)])
  }

  ghost predicate Siblings(r: RunRef, s: RunRef) {
    ValidRef(r) && ValidRef(s) && r.client == s.client && r.audit == s.audit && r.run != s.run
  }

  lemma OnlyOne(a: RunRecord, b: RunRecord)
    requires a.runId != b.runId
    ensures Matching([a, b], a.runId) == [a] && Matching([a, b], b.runId) == [b]
  {
    assert [a, b][..1] == [a] && [a][..0] == [];
    assert Matching([a], a.runId) == [a] && Matching([a], b.runId) == [];
  }

  lemma GatePasses(r: RunRef, s: RunRef)
    requires Siblings(r, s)
    ensures Gate.Passes(InputOf(r, s))
  {
    var i := InputOf(r, s);
    Gate.PassesIff(i);
    OnlyOne(i.runs[0], i.runs[1]);
    ExtractRoundTrip(r.client, r.audit, r.run);
    ExtractRoundTrip(s.client, s.audit, s.run);
    forall k | 0 <= k < |i.keys| ensures Gate.Single(i.runs, Gate.RunIdsOf(i.keys)[k]) {
      assert k == 0 || k == 1;
    }
  }

  // ---- and lists what the store holds ----

  lemma ListsStore(r: RunRef, s: RunRef, results: seq<EndpointResult>, st: State)
    requires Siblings(r, s) && st.records == map[r := Ending(r, false), s := Ending(s, true)]
    ensures Lists(Listing(r, s), st, r.client, r.audit)
  {
    var runs := Listing(r, s);
    assert RunRef(r.client, r.audit, r.run) == r && RunRef(r.client, r.audit, s.run) == s;
    forall run | Stored(st, r.client, r.audit, run)
      ensures Shown(run, st.records[RunRef(r.client, r.audit, run)]) in runs
    {
      assert run == r.run || run == s.run;
      assert runs[0] in runs && runs[1] in runs;
    }
  }

  lemma FailedListed(r: RunRef, s: RunRef)
    ensures WithStatus(Listing(r, s), RunStatus.Failed) != []
  {
    assert Listing(r, s)[1] in Listing(r, s);
    assert Listing(r, s)[1] in WithStatus(Listing(r, s), RunStatus.Failed);
  }

  predicate Short(id: string) {
    |id| == 1 && IdChars(id)
  }

  lemma ListingSafe(r: RunRef, s: RunRef)
    requires Short(r.client) && Short(r.audit) && Short(r.run)
    ensures KeysSafe(Listing(r, s), r.client, r.audit)
  {
    ShortSafe(r.client);
    ShortSafe(r.audit);
    ShortSafe(r.run);
    SafeKeyIff(r.client, r.audit, r.run);
  }

  /** Every marker but "?", "#" and "&" is longer than one character. */
  lemma ShortSafe(id: string)
    requires Short(id)
    ensures SafeId(id)
  {
    forall m | m in MARKERS ensures !Text.Contains(Lower(id), m) {
      NoMarkerIn(id, m);
    }
    forall i | 0 <= i <= |id| ensures !Text.StartsWith(id[i..], "..") {
      assert |id[i..]| < |".."|;
    }
  }

  lemma NoMarkerIn(id: string, m: string)
    requires Short(id) && m in MARKERS
    ensures !Text.Contains(Lower(id), m)
  {
    assert |m| > 1 || m in ["?", "#", "&"];
    assert IdChar(id[0]);
    NotInside(Lower(id), m);
  }

  lemma NotInside(t: string, m: string)
    requires |t| == 1 && |m| >= 1 && (|m| == 1 ==> m[0] != t[0])
    ensures !Text.Contains(t, m)
  {
    forall i | 0 <= i <= |t| ensures !Text.StartsWith(t[i..], m) {
      assert i == 0 ==> t[i..] == t;
    }
  }

  /** Whatever the two machines did: a direct completion on this listing is refused. */
  lemma ListingRefused(
    start: P.State, acts: seq<P.Action>, runStart: State, steps: seq<(nat, Answer)>, r: RunRef, s: RunRef, exec: string, cfg: string)
    requires P.Initial(start) && Initial(runStart) && exec != "" && cfg != ""
    requires start.client == r.client && start.auditId == r.audit
    requires var end := P.Exec(start, acts);
             && end.audit.Some? && end.audit.value.state.Completed? && !L.Forced(end.audit.value.history)
             && end.completion.Some? && end.completion.value.input == InputOf(r, s) && !end.completion.value.retry
    requires Lists(Listing(r, s), Exec(runStart, steps), r.client, r.audit)
    requires KeysSafe(Listing(r, s), r.client, r.audit) && Named(Exec(runStart, steps))
    ensures var loaded := LoadAll(Exec(runStart, steps).evidence, CompletedRuns(Listing(r, s)), r.client, r.audit);
            && loaded.Ok?
            && Validated(P.Exec(start, acts).audit.value, CompletedRuns(Listing(r, s)), loaded.value, exec, cfg).Err?
  {
    FailedListed(r, s);
    FinalizedAggregates(start, acts, runStart, steps, exec, cfg);
  }

  lemma StoreNamed(r: RunRef, s: RunRef, results: seq<EndpointResult>, st: State)
    requires forall i :: 0 <= i < |results| ==> results[i].endpointId != ""
    requires st.evidence == map[KeyOf(r) := EvidenceOf(r, results), KeyOf(s) := EvidenceOf(s, results)]
    ensures Named(st)
  {
  }

  lemma StoreReached(r: RunRef, s: RunRef, results: seq<EndpointResult>) returns (steps: seq<(nat, Answer)>)
    requires Siblings(r, s) && KeyOf(r) != KeyOf(s)
    requires results != [] && forall i :: 0 <= i < |results| ==> results[i].endpointId != ""
    ensures Initial(TwoRuns(r, s))
    ensures var store := Exec(TwoRuns(r, s), steps);
            Lists(Listing(r, s), store, r.client, r.audit) && Named(store)
            && KeyOf(r) in store.evidence && KeyOf(s) in store.evidence
  {
    var st := BothStored(r, s, results);
    steps :| Exec(TwoRuns(r, s), steps) == st;
    StoreNamed(r, s, results, st);
    ListsStore(r, s, results, st);
  }

  lemma AuditCompleted(i: Gate.Input) returns (acts: seq<P.Action>)
    requires Gate.Passes(i) && i == Gate.Input("c", "a", 2, Some(2), i.runs, i.keys)
    ensures P.Initial(Limits.Start())
    ensures var end := P.Exec(Limits.Start(), acts);
            && end.audit.Some? && end.audit.value.state.Completed? && !L.Forced(end.audit.value.history)
            && end.completion.Some? && end.completion.value.input == i && !end.completion.value.retry
  {
    acts := Limits.CompletesOn(2, i);
    ClosedUnforced(2);
  }

  lemma ClosedUnforced(n: nat)
    ensures !L.Forced(Limits.Closed(L.Audit(L.Finalizing, Limits.Life(), Some(n), Some(L.Finalization(n, false)))).history)
  {
  }

  /** The audit is COMPLETED by a gate that passed on exactly these two runs and their keys,
      with a count and a counter of two. */
  ghost predicate CompletedOn(end: P.State, r: RunRef, s: RunRef) {
    && end.audit.Some? && end.audit.value.state.Completed?
    && end.completion.Some? && end.completion.value.input == InputOf(r, s) && Gate.Passes(InputOf(r, s))
  }

  /** The store holds one COMPLETED and one FAILED run, both with evidence; the evidence of the
      first loads, but the evidence gate refuses it for this audit. */
  ghost predicate RefusedOn(a: L.Audit, store: State, r: RunRef, s: RunRef, exec: string, cfg: string) {
    && Lists(Listing(r, s), store, r.client, r.audit) && KeyOf(r) in store.evidence && KeyOf(s) in store.evidence
    && var loaded := LoadAll(store.evidence, CompletedRuns(Listing(r, s)), r.client, r.audit);
       loaded.Ok? && Validated(a, CompletedRuns(Listing(r, s)), loaded.value, exec, cfg).Err?
  }

  /** Some finalizer completes an audit, and some interleaving of its two runs leaves a store,
      so that finalization has accepted what aggregation refuses. */
  lemma CompletedAuditRefused(r: RunRef, s: RunRef, results: seq<EndpointResult>, exec: string, cfg: string)
    returns (acts: seq<P.Action>, steps: seq<(nat, Answer)>)
    requires r == RunRef("c", "a", "r") && s == RunRef("c", "a", "s") && exec != "" && cfg != ""
    requires results != [] && forall i :: 0 <= i < |results| ==> results[i].endpointId != ""
    ensures P.Initial(Limits.Start()) && CompletedOn(P.Exec(Limits.Start(), acts), r, s)
    ensures Initial(TwoRuns(r, s))
    ensures RefusedOn(P.Exec(Limits.Start(), acts).audit.value, Exec(TwoRuns(r, s), steps), r, s, exec, cfg)
  {
    Refs(r, s);
    GatePasses(r, s);
    ListingSafe(r, s);
    acts := AuditCompleted(InputOf(r, s));
    steps := StoreReached(r, s, results);
    ListingRefused(Limits.Start(), acts, TwoRuns(r, s), steps, r, s, exec, cfg);
  }

  lemma Refs(r: RunRef, s: RunRef)
    requires r == RunRef("c", "a", "r") && s == RunRef("c", "a", "s")
    ensures Siblings(r, s) && KeyOf(r) != KeyOf(s) && Short(r.client) && Short(r.audit) && Short(r.run)
  {
    EvidenceKeyInjective(r.client, r.audit, r.run, s.client, s.audit, s.run);
  }
}
