/** Run records and evidence keys. */
module RunRecords {
  import opened Wrappers
  import Text

  datatype RunStatus = Started | Completed | Failed

  datatype RunRecord = RunRecord(runId: string, status: RunStatus, version: Option<string>, rawKey: Option<string>)

  const RAW_RESULT_VERSION := "v1"

  predicate SlashFree(s: string) {
    Text.Free(s, '/')
  }

  function EvidenceFields(client: string, audit: string, run: string): seq<string> {
    ["raw-results", client, audit, run, "results.json"]
  }

  /** raw-results/{client_id}/{audit_id}/{run_id}/results.json */
  function EvidenceKey(client: string, audit: string, run: string): string {
    Text.Join(EvidenceFields(client, audit, run), '/')
  }

  /** The fourth path part, or "" when there is none. */
  function ExtractRunId(key: string): string {
    var parts := Text.Split(key, '/');
    if |parts| >= 4 then parts[3] else ""
  }

  /** A key built from slash-free ids gives the run id back. */
  lemma ExtractRoundTrip(client: string, audit: string, run: string)
    requires SlashFree(client) && SlashFree(audit) && SlashFree(run)
    ensures ExtractRunId(EvidenceKey(client, audit, run)) == run
  {
    Text.SplitJoin(EvidenceFields(client, audit, run), '/');
  }

  lemma EvidenceKeyInjective(c: string, a: string, r: string, d: string, b: string, q: string)
    requires SlashFree(c) && SlashFree(a) && SlashFree(r) && SlashFree(d) && SlashFree(b) && SlashFree(q)
    ensures EvidenceKey(c, a, r) == EvidenceKey(d, b, q) <==> c == d && a == b && r == q
  {
    if EvidenceKey(c, a, r) == EvidenceKey(d, b, q) {
      var f, g := EvidenceFields(c, a, r), EvidenceFields(d, b, q);
      Text.JoinInjective(f, g, '/');
      assert f[1] == g[1] && f[2] == g[2] && f[3] == g[3];
    }
  }

  /** The records of one run id. */
  function Matching(runs: seq<RunRecord>, id: string): (m: seq<RunRecord>)
    ensures forall r :: r in m <==> r in runs && r.runId == id
  {
    if runs == [] then []
    else
      var last := runs[|runs| - 1];
      var rest := Matching(runs[..|runs| - 1], id);
      assert runs == runs[..|runs| - 1] + [last];
      if last.runId == id then rest + [last] else rest
  }

  /** The records with one status, in order. */
  function WithStatus(runs: seq<RunRecord>, status: RunStatus): (m: seq<RunRecord>)
    ensures forall r :: r in m <==> r in runs && r.status == status
    ensures |m| <= |runs|
  {
    if runs == [] then []
    else
      var last := runs[|runs| - 1];
      var rest := WithStatus(runs[..|runs| - 1], status);
      assert runs == runs[..|runs| - 1] + [last];
      if last.status == status then rest + [last] else rest
  }

  /** How many records are COMPLETED or FAILED. */
  function TerminalCount(runs: seq<RunRecord>): nat {
    |runs| - |WithStatus(runs, Started)|
  }

  /** A run id with one record has it at one position. */
  lemma {:induction false} MatchingUnique(runs: seq<RunRecord>, id: string, i: nat, j: nat)
    requires i < j < |runs| && runs[i].runId == id == runs[j].runId
    ensures |Matching(runs, id)| >= 2
  {
    var n := |runs| - 1;
    if j < n {
      MatchingUnique(runs[..n], id, i, j);
    } else {
      assert runs[..n][i] in Matching(runs[..n], id);
    }
  }

  lemma {:induction false} StatusCounts(runs: seq<RunRecord>)
    ensures |runs| == |WithStatus(runs, Started)| + |WithStatus(runs, Completed)| + |WithStatus(runs, Failed)|
  {
    if runs != [] {
      StatusCounts(runs[..|runs| - 1]);
    }
  }
}
