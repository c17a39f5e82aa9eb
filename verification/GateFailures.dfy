/** Which failures the finalization gate reports, one by one, told by the records and keys. */
module GateFailures {
  import opened Wrappers
  import opened RunRecords
  import opened FinalizationGate
  import Text

  // ---- counts as numbers of positions ----

  ghost function Ended(runs: seq<RunRecord>): set<int> {
    set n | 0 <= n < |runs| && runs[n].status != Started
  }

  ghost function Named(runs: seq<RunRecord>, id: string): set<int> {
    set n | 0 <= n < |runs| && runs[n].runId == id
  }

  lemma {:induction false} EndedCountIn(runs: seq<RunRecord>, found: set<int>)
    requires forall n :: n in found <==> 0 <= n < |runs| && runs[n].status != Started
    ensures TerminalCount(runs) == |found|
  {
    if runs == [] {
      assert forall n :: n in found ==> 0 <= n < |runs|;
    } else {
      EndedCountIn(runs[..|runs| - 1], found - {|runs| - 1});
    }
  }

  lemma {:induction false} NamedCountIn(runs: seq<RunRecord>, id: string, found: set<int>)
    requires forall n :: n in found <==> 0 <= n < |runs| && runs[n].runId == id
    ensures |Matching(runs, id)| == |found|
  {
    if runs == [] {
      assert forall n :: n in found ==> 0 <= n < |runs|;
    } else {
      NamedCountIn(runs[..|runs| - 1], id, found - {|runs| - 1});
    }
  }

  // ---- what each failure says ----

  /** The fourth '/'-separated part of a key, nothing when there is none. */
  function RunOf(key: string): string {
    var parts := Text.Split(key, '/');
    if |parts| < 4 then "" else parts[3]
  }

  ghost predicate LacksEvidence(i: Input, id: string) {
    exists n :: 0 <= n < |i.runs| && i.runs[n].status == Completed && i.runs[n].runId == id
                && EvidenceKey(i.client, i.audit, id) !in i.keys
  }

  ghost predicate StillStarted(runs: seq<RunRecord>, id: string) {
    exists n :: n in Named(runs, id) && runs[n].status == Started
  }

  ghost predicate Justified(i: Input, f: CheckFailure) {
    match f.check
    case TerminalCountMatchesExpected => f.subject == "" && |Ended(i.runs)| != i.count
    case NoOrphanedStartedRecords => f.subject == "" && |Ended(i.runs)| != |i.runs|
    case EveryTerminalRunHasEvidence => LacksEvidence(i, f.subject)
    case EveryEvidenceMapsToOneRun => f.subject in i.keys && |Named(i.runs, RunOf(f.subject))| != 1
    case NoOrphanEvidence => f.subject in i.keys && StillStarted(i.runs, RunOf(f.subject))
    case CounterReconciliation => f.subject == "" && i.counter.Some? && i.counter.value != |Ended(i.runs)|
  }

  lemma {:induction false} EvidenceFailed(i: Input, n: nat, f: CheckFailure)
    requires n <= |i.runs|
    ensures f in EvidenceFailures(i, n) <==>
            f.check.EveryTerminalRunHasEvidence?
            && exists k :: 0 <= k < n && i.runs[k].status == Completed && i.runs[k].runId == f.subject
                           && EvidenceKey(i.client, i.audit, f.subject) !in i.keys
  {
    if n > 0 { EvidenceFailed(i, n - 1, f); }
  }

  lemma {:induction false} MappingFailed(runs: seq<RunRecord>, keys: seq<string>, ids: seq<string>, n: nat, f: CheckFailure)
    requires |ids| == |keys| && n <= |keys|
    ensures f in MappingFailures(runs, keys, ids, n) <==>
            f.check.EveryEvidenceMapsToOneRun? && exists k :: 0 <= k < n && keys[k] == f.subject && !Single(runs, ids[k])
  {
    if n > 0 { MappingFailed(runs, keys, ids, n - 1, f); }
  }

  lemma {:induction false} OrphanFailed(runs: seq<RunRecord>, keys: seq<string>, ids: seq<string>, n: nat, f: CheckFailure)
    requires |ids| == |keys| && n <= |keys|
    ensures f in OrphanFailures(runs, keys, ids, n) <==>
            f.check.NoOrphanEvidence? && exists k :: 0 <= k < n && keys[k] == f.subject && Orphaned(runs, ids[k])
  {
    if n > 0 { OrphanFailed(runs, keys, ids, n - 1, f); }
  }

  lemma MappingJustified(i: Input, f: CheckFailure)
    ensures f in MappingFailures(i.runs, i.keys, RunIdsOf(i.keys), |i.keys|) <==>
            f.check.EveryEvidenceMapsToOneRun? && Justified(i, f)
  {
    var ids := RunIdsOf(i.keys);
    MappingFailed(i.runs, i.keys, ids, |i.keys|, f);
    forall k | 0 <= k < |i.keys| ensures ids[k] == RunOf(i.keys[k]) { }
    NamedCountIn(i.runs, RunOf(f.subject), Named(i.runs, RunOf(f.subject)));
    assert Single(i.runs, RunOf(f.subject)) <==> |Named(i.runs, RunOf(f.subject))| == 1;
  }

  lemma OrphanedIff(runs: seq<RunRecord>, id: string)
    ensures Orphaned(runs, id) <==> StillStarted(runs, id)
  {
    if Orphaned(runs, id) {
      var r :| r in Matching(runs, id) && r.status.Started?;
      var n :| 0 <= n < |runs| && runs[n] == r;
      assert n in Named(runs, id);
    }
    if n :| n in Named(runs, id) && runs[n].status == Started {
      assert runs[n] in Matching(runs, id);
    }
  }

  lemma OrphansJustified(i: Input, f: CheckFailure)
    ensures f in OrphanFailures(i.runs, i.keys, RunIdsOf(i.keys), |i.keys|) <==>
            f.check.NoOrphanEvidence? && Justified(i, f)
  {
    var ids := RunIdsOf(i.keys);
    OrphanFailed(i.runs, i.keys, ids, |i.keys|, f);
    forall k | 0 <= k < |i.keys| ensures ids[k] == RunOf(i.keys[k]) { }
    OrphanedIff(i.runs, RunOf(f.subject));
  }

  lemma InSum<T>(a: seq<T>, b: seq<T>, c: seq<T>, d: seq<T>, e: seq<T>, f: seq<T>, x: T)
    ensures x in a + b + c + d + e + f <==> x in a || x in b || x in c || x in d || x in e || x in f
  {
  }

  /** With a positive count the gate reports exactly the failures there are: each names its
      check and the run or key it is about, and holds of the records and keys. */
  lemma ReportedIff(i: Input, f: CheckFailure)
    requires i.count > 0
    ensures Outcome(i).Ok? && (f in Outcome(i).value <==> Justified(i, f))
  {
    var ids := RunIdsOf(i.keys);
    EndedCountIn(i.runs, Ended(i.runs));
    EvidenceFailed(i, |i.runs|, f);
    MappingJustified(i, f);
    OrphansJustified(i, f);
    InSum(CountFailures(i), StartedFailures(i), EvidenceFailures(i, |i.runs|), MappingFailures(i.runs, i.keys, ids, |ids|),
          OrphanFailures(i.runs, i.keys, ids, |ids|), CounterFailures(i), f);
  }

  // ---- their order ----

  /** The checks in the order they run. */
  function Rank(c: Check): nat {
    match c
    case TerminalCountMatchesExpected => 1
    case NoOrphanedStartedRecords => 2
    case EveryTerminalRunHasEvidence => 3
    case EveryEvidenceMapsToOneRun => 4
    case NoOrphanEvidence => 5
    case CounterReconciliation => 6
  }

  ghost predicate AllRanked(s: seq<CheckFailure>, lo: nat, hi: nat) {
    && (forall n :: 0 <= n < |s| ==> lo <= Rank(s[n].check) <= hi)
    && forall m, n :: 0 <= m < n < |s| ==> Rank(s[m].check) <= Rank(s[n].check)
  }

  lemma RankedAppend(a: seq<CheckFailure>, b: seq<CheckFailure>, lo: nat, mid: nat)
    requires lo <= mid && AllRanked(a, lo, mid) && AllRanked(b, mid + 1, mid + 1)
    ensures AllRanked(a + b, lo, mid + 1)
  {
    var s := a + b;
    assert forall n :: 0 <= n < |s| ==> s[n] == if n < |a| then a[n] else b[n - |a|];
    forall m, n | 0 <= m < n < |s| ensures Rank(s[m].check) <= Rank(s[n].check) {
    }
  }

  lemma SixRanked(a: seq<CheckFailure>, b: seq<CheckFailure>, c: seq<CheckFailure>, d: seq<CheckFailure>, e: seq<CheckFailure>,
                  f: seq<CheckFailure>)
    requires AllRanked(a, 1, 1) && AllRanked(b, 2, 2) && AllRanked(c, 3, 3)
    requires AllRanked(d, 4, 4) && AllRanked(e, 5, 5) && AllRanked(f, 6, 6)
    ensures AllRanked(a + b + c + d + e + f, 1, 6)
  {
    RankedAppend(a, b, 1, 1);
    RankedAppend(a + b, c, 1, 2);
    RankedAppend(a + b + c, d, 1, 3);
    RankedAppend(a + b + c + d, e, 1, 4);
    RankedAppend(a + b + c + d + e, f, 1, 5);
  }

  lemma {:induction false} OneRank(s: seq<CheckFailure>, rank: nat)
    requires forall f :: f in s ==> Rank(f.check) == rank
    ensures AllRanked(s, rank, rank)
  {
    forall n | 0 <= n < |s| ensures Rank(s[n].check) == rank {
      assert s[n] in s;
    }
  }

  lemma EvidenceRanked(i: Input)
    ensures AllRanked(EvidenceFailures(i, |i.runs|), 3, 3)
  {
    var c := EvidenceFailures(i, |i.runs|);
    forall x | x in c ensures Rank(x.check) == 3 { EvidenceFailed(i, |i.runs|, x); }
    OneRank(c, 3);
  }

  lemma KeysRanked(i: Input, ids: seq<string>)
    requires |ids| == |i.keys|
    ensures AllRanked(MappingFailures(i.runs, i.keys, ids, |ids|), 4, 4)
    ensures AllRanked(OrphanFailures(i.runs, i.keys, ids, |ids|), 5, 5)
  {
    var d, e := MappingFailures(i.runs, i.keys, ids, |ids|), OrphanFailures(i.runs, i.keys, ids, |ids|);
    forall x | x in d ensures Rank(x.check) == 4 { MappingFailed(i.runs, i.keys, ids, |ids|, x); }
    forall x | x in e ensures Rank(x.check) == 5 { OrphanFailed(i.runs, i.keys, ids, |ids|, x); }
    OneRank(d, 4);
    OneRank(e, 5);
  }

  /** Failures of earlier checks are reported first. */
  lemma ReportedInOrder(i: Input)
    requires i.count > 0
    ensures AllRanked(Outcome(i).value, 1, 6)
  {
    var ids := RunIdsOf(i.keys);
    EvidenceRanked(i);
    KeysRanked(i, ids);
    SixRanked(CountFailures(i), StartedFailures(i), EvidenceFailures(i, |i.runs|), MappingFailures(i.runs, i.keys, ids, |ids|),
              OrphanFailures(i.runs, i.keys, ids, |ids|), CounterFailures(i));
  }
}
