/** Three domains of report certification and what a CERTIFIED verdict entails about the
    endpoint list. */
module Certification {
  import opened Wrappers
  import opened Ordering
  import RunExecution

  /** The parts of a report the checks read; an absent section is None. A null endpoint id
      reads as the empty string. */
  datatype Endpoint = Endpoint(
    id: string, executions: Option<int>, scores: Option<seq<Option<real>>>, stability: bool, burst: bool, consistency: bool)

  datatype Summary = Summary(
    endpointCount: int, successRate: real, total: int, label_: string, composite: Option<real>, description: string)

  datatype Report = Report(
    endpoints: Option<seq<Endpoint>>, summary: Option<Summary>, reportVersion: Option<Option<string>>,
    intelligenceVersion: Option<string>, methodology: Option<bool>)

  datatype Status = Passed | Failed | Blocked

  datatype DomainResult = DomainResult(status: Status, performed: nat, passed: nat, failures: seq<string>)

  datatype Verdict = Certified | CertificationFailed | CertificationBlocked

  // ---- counting checks ----

  function BlockedResult(reason: string): DomainResult {
    DomainResult(Blocked, 0, 0, [reason])
  }

  /** A result as the checks add to it, one at a time. */
  function Add(r: DomainResult, name: string, holds: bool): DomainResult {
    if holds then r.(performed := r.performed + 1, passed := r.passed + 1)
    else r.(performed := r.performed + 1, failures := r.failures + [name], status := Failed)
  }

  const NONE := DomainResult(Passed, 0, 0, [])

  predicate Consistent(r: DomainResult) {
    r.performed == r.passed + |r.failures| && (r.status.Passed? <==> r.failures == []) && !r.status.Blocked?
  }

  /** Every check performed is counted as passed or listed as a failure, and a result passes
      exactly when no failure is listed. */
  lemma AddConsistent(r: DomainResult, name: string, holds: bool)
    requires Consistent(r)
    ensures Consistent(Add(r, name, holds)) && Add(r, name, holds).performed == r.performed + 1
    ensures Add(r, name, holds).status.Passed? <==> r.status.Passed? && holds
  {
  }

  /** The scheduler domain performs three checks and accounts for each. */
  lemma SchedulerTally(r: Report)
    ensures var d := SchedulerResult(r); d.status.Blocked? || (Consistent(d) && d.performed == 3)
  {
    if r.methodology.Some? && r.summary.Some? && r.endpoints.Some? {
      var s := r.summary.value;
      var one := Add(NONE, "SI-1", s.total > 0);
      var two := Add(one, "SI-2", Dense(r.endpoints.value, s));
      AddConsistent(NONE, "SI-1", s.total > 0);
      AddConsistent(one, "SI-2", Dense(r.endpoints.value, s));
      AddConsistent(two, "SI-3", r.methodology.value);
    }
  }

  // ---- scheduler integrity ----

  function CeilDiv(a: int, n: int): int
    requires n > 0
  {
    if a % n == 0 then a / n else a / n + 1
  }

  /** Whether every endpoint has an execution count to read. */
  predicate Counted(es: seq<Endpoint>) {
    forall i :: 0 <= i < |es| ==> es[i].executions.Some?
  }

  /** Every count lies between the floor and the ceiling of the mean. */
  predicate Even(es: seq<Endpoint>, total: int, n: int)
    requires n > 0
  {
    forall i :: 0 <= i < |es| && es[i].executions.Some? ==> total / n <= es[i].executions.value <= CeilDiv(total, n)
  }

  predicate Dense(es: seq<Endpoint>, s: Summary) {
    s.endpointCount > 0 && s.total > 0 && Even(es, s.total, s.endpointCount)
  }

  function SchedulerResult(r: Report): DomainResult {
    if r.methodology.None? || r.summary.None? || r.endpoints.None? then BlockedResult("section absent")
    else
      var s := r.summary.value;
      Add(Add(Add(NONE, "SI-1", s.total > 0), "SI-2", Dense(r.endpoints.value, s)), "SI-3", r.methodology.value)
  }

  /** The check raises when it has to read a count that is not there. */
  method CheckSchedulerIntegrity(r: Report) returns (d: Option<DomainResult>)
    ensures d.Some? ==> d.value == SchedulerResult(r)
    ensures r.endpoints.Some? && Counted(r.endpoints.value) ==> d.Some?
  {
    if r.methodology.None? || r.summary.None? || r.endpoints.None? {
      return Some(BlockedResult("section absent"));
    }
    var s, es := r.summary.value, r.endpoints.value;
    var out := Add(NONE, "SI-1", s.total > 0);
    if s.endpointCount > 0 && s.total > 0 {
      var floor, ceil := s.total / s.endpointCount, CeilDiv(s.total, s.endpointCount);
      var uneven: seq<string> := [];
      for i := 0 to |es|
        invariant uneven == [] <==> Even(es[..i], s.total, s.endpointCount)
        invariant Counted(es[..i])
      {
        if es[i].executions.None? {
          assert !Counted(es);
          return None;
        }
        assert es[..i + 1] == es[..i] + [es[i]];
        if es[i].executions.value < floor || es[i].executions.value > ceil {
          assert !Even([es[i]], s.total, s.endpointCount);
          assert es[..i + 1][i] == es[i];
          uneven := uneven + [es[i].id];
        }
      }
      assert es[..|es|] == es;
      out := Add(out, "SI-2", uneven == []);
    } else {
      out := Add(out, "SI-2", false);
    }
    d := Some(Add(out, "SI-3", r.methodology.value));
  }

  // ---- observation coverage ----

  predicate Observed(e: Endpoint) {
    e.scores.Some? && e.executions.Some? && e.stability && e.burst && e.consistency
  }

  function SumExecutions(es: seq<Endpoint>): int {
    if es == [] then 0
    else SumExecutions(es[..|es| - 1]) + match es[|es| - 1].executions case Some(n) => n case None => 0
  }

  /** round(value, 3) in exact arithmetic */
  function Round3(v: real): real {
    (v * 1000.0 + 0.5).Floor as real / 1000.0
  }

  predicate ThreeDecimals(v: real) {
    -0.000000001 < v - Round3(v) < 0.000000001
  }

  predicate UnitScore(v: real) {
    0.0 <= v <= 1.0 && ThreeDecimals(v)
  }

  predicate AllObserved(es: seq<Endpoint>) {
    forall i :: 0 <= i < |es| ==> Observed(es[i])
  }

  /** `recorded` is ReportMetadata.endpoint_count, absent when the key is. */
  function CoverageResult(r: Report, recorded: Option<int>): DomainResult {
    if recorded.None? then BlockedResult("metadata keys absent")
    else if r.endpoints.None? || r.summary.None? then BlockedResult("section absent")
    else
      var s, es := r.summary.value, r.endpoints.value;
      Add(Add(Add(Add(Add(NONE, "OC-1", AllObserved(es)), "OC-2", s.endpointCount == |es|), "OC-3", recorded.value == |es|),
              "OC-4", UnitScore(s.successRate)), "OC-5", s.total == SumExecutions(es))
  }

  method CheckObservationCoverage(r: Report, recorded: Option<int>) returns (d: Option<DomainResult>)
    ensures d.Some? ==> d.value == CoverageResult(r, recorded)
    ensures r.endpoints.Some? && Counted(r.endpoints.value) ==> d.Some?
  {
    if recorded.None? {
      return Some(BlockedResult("metadata keys absent"));
    }
    if r.endpoints.None? || r.summary.None? {
      return Some(BlockedResult("section absent"));
    }
    var s, es := r.summary.value, r.endpoints.value;
    var absent: seq<string> := [];
    for i := 0 to |es|
      invariant absent == [] <==> AllObserved(es[..i])
    {
      assert es[..i + 1] == es[..i] + [es[i]];
      if !Observed(es[i]) {
        assert es[..i + 1][i] == es[i];
        absent := absent + [es[i].id];
      }
    }
    assert es[..|es|] == es;
    var out := Add(NONE, "OC-1", absent == []);
    out := Add(out, "OC-2", s.endpointCount == |es|);
    out := Add(out, "OC-3", recorded.value == |es|);
    out := Add(out, "OC-4", UnitScore(s.successRate));
    var sum := 0;
    for i := 0 to |es|
      invariant sum == SumExecutions(es[..i])
    {
      if es[i].executions.None? {
        return None;
      }
      assert es[..i + 1][..i] == es[..i];
      sum := sum + es[i].executions.value;
    }
    assert es[..|es|] == es;
    d := Some(Add(out, "OC-5", s.total == sum));
  }

  // ---- report integrity ----

  predicate SortedIds(es: seq<Endpoint>) {
    forall i :: 0 <= i < |es| - 1 ==> StringLe(es[i].id, es[i + 1].id)
  }

  predicate NoDuplicateIds(es: seq<Endpoint>) {
    forall i, j :: 0 <= i < j < |es| ==> es[i].id != es[j].id
  }

  predicate NoEmptyIds(es: seq<Endpoint>) {
    forall i :: 0 <= i < |es| ==> es[i].id != ""
  }

  predicate ScoresInRange(e: Endpoint) {
    e.scores.Some? && forall i :: 0 <= i < |e.scores.value| ==> e.scores.value[i].Some? && UnitScore(e.scores.value[i].value)
  }

  predicate AllScoresInRange(es: seq<Endpoint>) {
    forall i :: 0 <= i < |es| ==> ScoresInRange(es[i])
  }

  /** `labels` and `descriptions` are the bounded value sets of the report format. */
  function IntegrityResult(r: Report, labels: set<string>, descriptions: set<string>): DomainResult {
    if r.reportVersion.None? || r.summary.None? || r.endpoints.None? then BlockedResult("section absent")
    else
      var s, es := r.summary.value, r.endpoints.value;
      var a := Add(Add(Add(NONE, "RI-1", r.reportVersion.value == Some("report_v1")), "RI-2", r.intelligenceVersion == Some("intel_v1")),
                   "RI-3", s.label_ in labels);
      var b := Add(Add(Add(a, "RI-4", s.composite.Some? && UnitScore(s.composite.value)), "RI-5", SortedIds(es)),
                   "RI-6", NoDuplicateIds(es));
      Add(Add(Add(b, "RI-7", NoEmptyIds(es)), "RI-8", AllScoresInRange(es)), "RI-9", s.description in descriptions)
  }

  method DuplicateIds(es: seq<Endpoint>) returns (duplicates: seq<string>)
    ensures duplicates == [] <==> NoDuplicateIds(es)
  {
    var seen: set<string> := {};
    duplicates := [];
    for i := 0 to |es|
      invariant forall id :: id in seen <==> exists j :: 0 <= j < i && es[j].id == id
      invariant duplicates == [] <==> NoDuplicateIds(es[..i])
    {
      assert es[..i + 1] == es[..i] + [es[i]];
      if es[i].id in seen {
        var j :| 0 <= j < i && es[j].id == es[i].id;
        assert es[..i + 1][j].id == es[..i + 1][i].id;
        duplicates := duplicates + [es[i].id];
      }
      seen := seen + {es[i].id};
    }
    assert es[..|es|] == es;
  }

  method EmptyIds(es: seq<Endpoint>) returns (indices: seq<nat>)
    ensures indices == [] <==> NoEmptyIds(es)
  {
    indices := [];
    for i := 0 to |es|
      invariant indices == [] <==> NoEmptyIds(es[..i])
    {
      assert es[..i + 1] == es[..i] + [es[i]];
      if es[i].id == "" {
        assert es[..i + 1][i].id == "";
        indices := indices + [i];
      }
    }
    assert es[..|es|] == es;
  }

  method OutOfRange(es: seq<Endpoint>) returns (out: seq<string>)
    ensures out == [] <==> AllScoresInRange(es)
  {
    out := [];
    for i := 0 to |es|
      invariant out == [] <==> AllScoresInRange(es[..i])
    {
      assert es[..i + 1] == es[..i] + [es[i]];
      if !ScoresInRange(es[i]) {
        assert es[..i + 1][i] == es[i];
        out := out + [es[i].id];
      }
    }
    assert es[..|es|] == es;
  }

  method CheckReportIntegrity(r: Report, labels: set<string>, descriptions: set<string>) returns (d: DomainResult)
    ensures d == IntegrityResult(r, labels, descriptions)
  {
    if r.reportVersion.None? || r.summary.None? || r.endpoints.None? {
      return BlockedResult("section absent");
    }
    var s, es := r.summary.value, r.endpoints.value;
    d := Add(NONE, "RI-1", r.reportVersion.value == Some("report_v1"));
    d := Add(d, "RI-2", r.intelligenceVersion == Some("intel_v1"));
    d := Add(d, "RI-3", s.label_ in labels);
    d := Add(d, "RI-4", s.composite.Some? && UnitScore(s.composite.value));
    var sorted := true;
    for i := 0 to |es|
      invariant sorted <==> forall j :: 0 <= j < i && j < |es| - 1 ==> StringLe(es[j].id, es[j + 1].id)
    {
      if i + 1 < |es| && !StringLe(es[i].id, es[i + 1].id) {
        sorted := false;
      }
    }
    d := Add(d, "RI-5", sorted);
    var duplicates := DuplicateIds(es);
    d := Add(d, "RI-6", duplicates == []);
    var empty := EmptyIds(es);
    d := Add(d, "RI-7", empty == []);
    var out := OutOfRange(es);
    d := Add(d, "RI-8", out == []);
    d := Add(d, "RI-9", s.description in descriptions);
  }

  // ---- the verdict ----

  /** BLOCKED before FAILED before CERTIFIED. */
  function DetermineTerminalState(results: seq<DomainResult>): (v: Verdict)
    ensures v.Certified? <==> forall i :: 0 <= i < |results| ==> results[i].status.Passed?
    ensures v.CertificationBlocked? <==> !forall i :: 0 <= i < |results| ==> !results[i].status.Blocked?
    ensures v.CertificationFailed? ==> exists i :: 0 <= i < |results| && results[i].status.Failed?
  {
    if exists i :: 0 <= i < |results| && results[i].status.Blocked? then CertificationBlocked
    else if exists i :: 0 <= i < |results| && results[i].status.Failed? then CertificationFailed
    else Certified
  }

  lemma SchedulerPassed(r: Report)
    requires SchedulerResult(r).status.Passed?
    ensures r.summary.Some? && r.endpoints.Some? && Dense(r.endpoints.value, r.summary.value)
  {
  }

  lemma CoveragePassed(r: Report, recorded: Option<int>)
    requires CoverageResult(r, recorded).status.Passed?
    ensures r.summary.Some? && r.endpoints.Some?
    ensures AllObserved(r.endpoints.value) && r.summary.value.endpointCount == |r.endpoints.value|
    ensures r.summary.value.total == SumExecutions(r.endpoints.value) && recorded == Some(|r.endpoints.value|)
  {
  }

  lemma IntegrityPassed(r: Report, labels: set<string>, descriptions: set<string>)
    requires IntegrityResult(r, labels, descriptions).status.Passed?
    ensures r.endpoints.Some?
    ensures SortedIds(r.endpoints.value) && NoDuplicateIds(r.endpoints.value) && NoEmptyIds(r.endpoints.value)
  {
  }

  /** Strictly later in code-point order. */
  predicate StringLess(a: string, b: string) {
    StringLe(a, b) && a != b
  }

  lemma {:induction false} SortedPairs(es: seq<Endpoint>, i: nat, j: nat)
    requires SortedIds(es) && i < j < |es|
    ensures StringLe(es[i].id, es[j].id)
    decreases j
  {
    if i + 1 < j {
      SortedPairs(es, i, j - 1);
      StringLeTransitive(es[i].id, es[j - 1].id, es[j].id);
    }
  }

  /** How many endpoints have exactly n executions. */
  function AtCount(es: seq<Endpoint>, n: int): nat {
    if es == [] then 0 else AtCount(es[..|es| - 1], n) + if es[|es| - 1].executions == Some(n) then 1 else 0
  }

  lemma {:induction false} SumOfTwoCounts(es: seq<Endpoint>, q: int)
    requires forall i :: 0 <= i < |es| ==> es[i].executions == Some(q) || es[i].executions == Some(q + 1)
    ensures SumExecutions(es) == |es| * q + AtCount(es, q + 1)
  {
    if es != [] {
      SumOfTwoCounts(es[..|es| - 1], q);
      assert |es| * q == (|es| - 1) * q + q;
    }
  }

  /** An endpoint is among those counted by AtCount, or it is not. */
  lemma {:induction false} AtCountOf(es: seq<Endpoint>, n: int, i: nat)
    requires i < |es|
    ensures AtCount(es, n) <= |es|
    ensures es[i].executions == Some(n) ==> AtCount(es, n) >= 1
    ensures es[i].executions != Some(n) ==> AtCount(es, n) < |es|
  {
    var k := |es| - 1;
    if i < k {
      AtCountOf(es[..k], n, i);
    } else if k > 0 {
      AtCountOf(es[..k], n, 0);
    }
  }

  /** A CERTIFIED report lists endpoints with strictly increasing, non-empty ids. Their
      execution counts sum to the stated total; each is the floor of the mean or one more;
      and exactly `total mod n` of them are one more. */
  lemma CertifiedEndpoints(
    r: Report, recorded: Option<int>, labels: set<string>, descriptions: set<string>, results: seq<DomainResult>)
    requires DetermineTerminalState(results).Certified?
    requires SchedulerResult(r) in results && CoverageResult(r, recorded) in results
    requires IntegrityResult(r, labels, descriptions) in results
    ensures r.summary.Some? && r.endpoints.Some? && |r.endpoints.value| > 0
    ensures var es, total := r.endpoints.value, r.summary.value.total;
            var n := |es|;
            && (forall i :: 0 <= i < n ==> es[i].id != "")
            && (forall i, j :: 0 <= i < j < n ==> StringLess(es[i].id, es[j].id))
            && SumExecutions(es) == total
            && (forall i :: 0 <= i < n ==> es[i].executions == Some(total / n) || es[i].executions == Some(total / n + 1))
            && AtCount(es, total / n + 1) == total % n
  {
    SchedulerPassed(r);
    CoveragePassed(r, recorded);
    IntegrityPassed(r, labels, descriptions);
    var es, total := r.endpoints.value, r.summary.value.total;
    forall i, j | 0 <= i < j < |es| ensures StringLess(es[i].id, es[j].id) { SortedPairs(es, i, j); }
    EvenCounts(es, total);
  }

  lemma EvenCounts(es: seq<Endpoint>, total: int)
    requires |es| > 0 && AllObserved(es) && Even(es, total, |es|) && SumExecutions(es) == total
    ensures forall i :: 0 <= i < |es| ==> es[i].executions == Some(total / |es|) || es[i].executions == Some(total / |es| + 1)
    ensures AtCount(es, total / |es| + 1) == total % |es|
  {
    var n, q := |es|, total / |es|;
    forall i | 0 <= i < n ensures es[i].executions == Some(q) || es[i].executions == Some(q + 1) {
      assert Observed(es[i]);
    }
    SumOfTwoCounts(es, q);
    assert total == n * q + total % n;
  }

  // ---- which audits pass the density check ----

  ghost predicate WithinOne(es: seq<Endpoint>) {
    forall i, j :: 0 <= i < |es| && 0 <= j < |es| && es[i].executions.Some? && es[j].executions.Some? ==>
      es[i].executions.value <= es[j].executions.value + 1
  }

  lemma {:induction false} LeastCount(es: seq<Endpoint>) returns (m: nat)
    requires es != [] && Counted(es)
    ensures m < |es| && forall i :: 0 <= i < |es| ==> es[m].executions.value <= es[i].executions.value
  {
    if |es| == 1 {
      m := 0;
    } else {
      var n := |es| - 1;
      var k := LeastCount(es[..n]);
      m := if es[k].executions.value <= es[n].executions.value then k else n;
      forall i | 0 <= i < |es| ensures es[m].executions.value <= es[i].executions.value {
        assert i < n ==> es[..n][i] == es[i];
      }
    }
  }

  /** The density check compares counts with the mean, but decides exactly whether no two
      endpoints are more than one execution apart. */
  lemma DenseIffWithinOne(es: seq<Endpoint>)
    requires es != [] && Counted(es)
    ensures Even(es, SumExecutions(es), |es|) <==> WithinOne(es)
  {
    if WithinOne(es) {
      var m := LeastCount(es);
      var q := es[m].executions.value;
      SumOfTwoCounts(es, q);
      AtCountOf(es, q + 1, m);
      var k, n := AtCount(es, q + 1), |es|;
      assert es[m].executions != Some(q + 1);
      DivideInt(SumExecutions(es), n, q, k);
      forall i | 0 <= i < n ensures q <= es[i].executions.value <= CeilDiv(SumExecutions(es), n) {
        AtCountOf(es, q + 1, i);
      }
    }
  }

  lemma DivideInt(m: int, n: nat, q: int, r: nat)
    requires r < n && m == n * q + r
    ensures m / n == q && m % n == r
  {
    var d := m / n - q;
    assert m == n * (m / n) + m % n;
    assert n * d == r - m % n;
    assert (d >= 1 ==> n * d >= n) && (d <= -1 ==> n * d <= 0 - n);
  }

  /** What an endpoint gets from bursts of the given sizes over n endpoints: the round-robin of
      each starts again at the first endpoint. */
  function BurstShare(bursts: seq<nat>, n: nat, e: nat): nat
    requires n > 0
  {
    if bursts == [] then 0
    else BurstShare(bursts[..|bursts| - 1], n, e) + RunExecution.Share(bursts[|bursts| - 1], n, e)
  }

  /** What every endpoint gets from them. */
  function FullRounds(bursts: seq<nat>, n: nat): nat
    requires n > 0
  {
    if bursts == [] then 0 else FullRounds(bursts[..|bursts| - 1], n) + bursts[|bursts| - 1] / n
  }

  /** How many bursts leave a remainder beyond the first m endpoints. */
  function Beyond(bursts: seq<nat>, n: nat, m: nat): nat
    requires n > 0
  {
    if bursts == [] then 0
    else Beyond(bursts[..|bursts| - 1], n, m) + if bursts[|bursts| - 1] % n > m then 1 else 0
  }

  lemma {:induction false} BurstShareIs(bursts: seq<nat>, n: nat, e: nat)
    requires e < n
    ensures BurstShare(bursts, n, e) == FullRounds(bursts, n) + Beyond(bursts, n, e)
  {
    if bursts != [] {
      BurstShareIs(bursts[..|bursts| - 1], n, e);
      RunExecution.SharesEven(bursts[|bursts| - 1], n, e);
    }
  }

  lemma {:induction false} BeyondFalls(bursts: seq<nat>, n: nat, d: nat, e: nat)
    requires n > 0 && d <= e
    ensures Beyond(bursts, n, e) <= Beyond(bursts, n, d)
    ensures e >= n - 1 ==> Beyond(bursts, n, e) == 0
  {
    if bursts != [] {
      BeyondFalls(bursts[..|bursts| - 1], n, d, e);
    }
  }

  /** Executions of each of the n endpoints: `base` by iterations, and its share of the bursts. */
  function Totals(base: seq<nat>, bursts: seq<nat>, n: nat): (t: seq<nat>)
    requires n > 0 && |base| == n
    ensures |t| == n
    ensures forall e :: 0 <= e < n ==> t[e] == base[e] + BurstShare(bursts, n, e)
  {
    seq(n, e requires 0 <= e < n => base[e] + BurstShare(bursts, n, e))
  }

  ghost predicate Counts(x: Endpoint, totals: seq<nat>) {
    exists e :: 0 <= e < |totals| && x.executions == Some(totals[e]) && totals[e] > 0
  }

  ghost predicate Listed(es: seq<Endpoint>, count: nat) {
    exists i :: 0 <= i < |es| && es[i].executions == Some(count)
  }

  /** The endpoint section of an audit: an entry for each endpoint that was executed at all, in
      any order. */
  ghost predicate Reports(es: seq<Endpoint>, totals: seq<nat>) {
    && (forall i :: 0 <= i < |es| ==> Counts(es[i], totals))
    && (forall e :: 0 <= e < |totals| && totals[e] > 0 ==> Listed(es, totals[e]))
  }

  /** No endpoint that was executed has more than one execution less than another. */
  ghost predicate Level(totals: seq<nat>) {
    forall d, e :: 0 <= d < |totals| && 0 <= e < |totals| && totals[e] > 0 ==> totals[d] <= totals[e] + 1
  }

  /** The section passes the density check exactly when the totals are level. */
  lemma ReportedDenseIff(es: seq<Endpoint>, totals: seq<nat>)
    requires es != [] && Reports(es, totals)
    ensures Even(es, SumExecutions(es), |es|) <==> Level(totals)
  {
    forall i | 0 <= i < |es| ensures es[i].executions.Some? { assert Counts(es[i], totals); }
    DenseIffWithinOne(es);
    if Level(totals) {
      forall i, j | 0 <= i < |es| && 0 <= j < |es| ensures es[i].executions.value <= es[j].executions.value + 1 {
        assert Counts(es[i], totals) && Counts(es[j], totals);
      }
    }
    if WithinOne(es) {
      forall d, e | 0 <= d < |totals| && 0 <= e < |totals| && totals[e] > 0 ensures totals[d] <= totals[e] + 1 {
        if totals[d] > 0 {
          assert Listed(es, totals[d]) && Listed(es, totals[e]);
        }
      }
    }
  }

  /** What an endpoint has beyond the full rounds of the bursts. */
  function Extra(base: seq<nat>, bursts: seq<nat>, n: nat, e: nat): nat
    requires n > 0 && |base| == n && e < n
  {
    base[e] + Beyond(bursts, n, e)
  }

  /** Whatever the iterations gave each endpoint: the section passes exactly when no executed
      endpoint is more than one behind another in what they have beyond the full rounds, by
      iterations and by the remainders of the bursts. */
  lemma BasedDenseIff(es: seq<Endpoint>, base: seq<nat>, bursts: seq<nat>, n: nat)
    requires n > 0 && |base| == n && es != [] && Reports(es, Totals(base, bursts, n))
    ensures Even(es, SumExecutions(es), |es|) <==>
            forall d, e :: 0 <= d < n && 0 <= e < n && Totals(base, bursts, n)[e] > 0 ==>
              Extra(base, bursts, n, d) <= Extra(base, bursts, n, e) + 1
  {
    var t := Totals(base, bursts, n);
    ReportedDenseIff(es, t);
    forall e | 0 <= e < n ensures t[e] == FullRounds(bursts, n) + Extra(base, bursts, n, e) {
      BurstShareIs(bursts, n, e);
    }
  }

  ghost predicate Uniform(base: seq<nat>, b: nat) {
    forall e :: 0 <= e < |base| ==> base[e] == b
  }

  lemma UniformTotals(base: seq<nat>, b: nat, bursts: seq<nat>, n: nat, e: nat)
    requires n > 0 && |base| == n && Uniform(base, b) && e < n
    ensures Totals(base, bursts, n)[e] == b + FullRounds(bursts, n) + Beyond(bursts, n, e)
    ensures Beyond(bursts, n, e) <= Beyond(bursts, n, 0)
    ensures Beyond(bursts, n, n - 1) == 0
  {
    BurstShareIs(bursts, n, e);
    BeyondFalls(bursts, n, 0, e);
    BeyondFalls(bursts, n, e, n - 1);
  }

  /** When the iterations gave every endpoint the same and every endpoint was executed, the
      section passes exactly when at most one burst is not a multiple of the endpoint count. */
  lemma BurstsDenseIff(es: seq<Endpoint>, base: seq<nat>, b: nat, bursts: seq<nat>, n: nat)
    requires n > 0 && |base| == n && Uniform(base, b) && b + FullRounds(bursts, n) > 0
    requires es != [] && Reports(es, Totals(base, bursts, n))
    ensures Even(es, SumExecutions(es), |es|) <==> Beyond(bursts, n, 0) <= 1
  {
    var t := Totals(base, bursts, n);
    ReportedDenseIff(es, t);
    forall e | 0 <= e < n
      ensures t[e] == b + FullRounds(bursts, n) + Beyond(bursts, n, e) && Beyond(bursts, n, e) <= Beyond(bursts, n, 0)
    {
      UniformTotals(base, b, bursts, n, e);
    }
    UniformTotals(base, b, bursts, n, n - 1);
    if Level(t) {
      assert t[0] <= t[n - 1] + 1;
    }
  }

  /** How many of the bursts are not empty and smaller than m. */
  function Smaller(bursts: seq<nat>, m: nat): nat {
    if bursts == [] then 0
    else Smaller(bursts[..|bursts| - 1], m) + if 0 < bursts[|bursts| - 1] < m then 1 else 0
  }

  lemma {:induction false} ShortBursts(bursts: seq<nat>, n: nat, m: nat)
    requires 0 < m < n && forall i :: 0 <= i < |bursts| ==> bursts[i] <= m
    ensures FullRounds(bursts, n) == 0
    ensures Beyond(bursts, n, 0) == Smaller(bursts, m) + Beyond(bursts, n, m - 1)
    ensures m in bursts ==> Beyond(bursts, n, m - 1) > 0
    ensures Beyond(bursts, n, m) == 0
  {
    if bursts != [] {
      ShortBursts(bursts[..|bursts| - 1], n, m);
      assert bursts == bursts[..|bursts| - 1] + [bursts[|bursts| - 1]];
      DivideInt(bursts[|bursts| - 1], n, 0, bursts[|bursts| - 1]);
    }
  }

  lemma ShortTotal(base: seq<nat>, bursts: seq<nat>, n: nat, m: nat, e: nat)
    requires 0 < m < n && |base| == n && Uniform(base, 0) && e < n
    requires FullRounds(bursts, n) == 0 && Beyond(bursts, n, m) == 0
    ensures Totals(base, bursts, n)[e] == Beyond(bursts, n, e) <= Beyond(bursts, n, 0)
    ensures e < m ==> Beyond(bursts, n, m - 1) <= Beyond(bursts, n, e)
    ensures e >= m ==> Beyond(bursts, n, e) == 0
  {
    UniformTotals(base, 0, bursts, n, e);
    if e < m {
      BeyondFalls(bursts, n, e, m - 1);
    } else {
      BeyondFalls(bursts, n, m, e);
    }
  }

  /** With nothing but bursts that leave some endpoint out, the section lists only the others,
      and passes exactly when at most one burst is smaller than the largest. */
  lemma ShortBurstsDenseIff(es: seq<Endpoint>, base: seq<nat>, bursts: seq<nat>, n: nat, m: nat)
    requires 0 < m < n && m in bursts && forall i :: 0 <= i < |bursts| ==> bursts[i] <= m
    requires |base| == n && Uniform(base, 0) && es != [] && Reports(es, Totals(base, bursts, n))
    ensures Even(es, SumExecutions(es), |es|) <==> Smaller(bursts, m) <= 1
  {
    var t := Totals(base, bursts, n);
    ReportedDenseIff(es, t);
    ShortBursts(bursts, n, m);
    ShortTotal(base, bursts, n, m, 0);
    ShortTotal(base, bursts, n, m, m - 1);
    forall e | 0 <= e < n ensures t[e] <= t[0] && if e < m then t[m - 1] <= t[e] else t[e] == 0 {
      ShortTotal(base, bursts, n, m, e);
    }
    if Level(t) {
      assert t[0] <= t[m - 1] + 1;
    }
  }

  lemma TwoSingleRequests(bursts: seq<nat>)
    requires bursts == [1, 1]
    ensures FullRounds(bursts, 2) == 0 && Beyond(bursts, 2, 0) == 2
  {
    assert bursts[..1] == [1] && [1][..0] == [];
    assert Beyond([1], 2, 0) == 1 && FullRounds([1], 2) == 0;
  }

  lemma BothReported(es: seq<Endpoint>, totals: seq<nat>)
    requires |es| == 2 == |totals| && totals[0] > 0 && totals[1] > 0
    requires es[0].executions == Some(totals[0]) && es[1].executions == Some(totals[1])
    ensures Reports(es, totals)
  {
    forall e | 0 <= e < 2 ensures Listed(es, totals[e]) {
      assert es[e].executions == Some(totals[e]);
    }
  }

  /** One iteration over two endpoints and two bursts of a single request give the first
      endpoint three executions and the second one, and the section fails the check. */
  lemma TwoUnevenBursts(es: seq<Endpoint>, base: seq<nat>, bursts: seq<nat>, s: Summary)
    requires |es| == 2 && es[0].executions == Some(3) && es[1].executions == Some(1)
    requires base == [1, 1] && bursts == [1, 1] && s.endpointCount == |es| && s.total == SumExecutions(es)
    ensures Reports(es, Totals(base, bursts, 2)) && !Dense(es, s)
  {
    TwoSingleRequests(bursts);
    UniformTotals(base, 1, bursts, 2, 0);
    UniformTotals(base, 1, bursts, 2, 1);
    BothReported(es, Totals(base, bursts, 2));
    BurstsDenseIff(es, base, 1, bursts, 2);
  }
}
